/** `fetch` (src/np_config.py:53-76) and `from_zk` (lines 37-40): the one
    entry point that tells an in-memory mapping, a file and a ZooKeeper key
    apart and returns a fresh mapping. The filesystem is a map from path to
    the contents of a regular file; paths are looked up as written. */
module Resolver {
  import opened Values
  import opened Codec
  import opened ZkTree
  import opened LocalStore
  import opened Server

  /** What `fetch` may be given. */
  datatype Arg =
    | Mapping(entries: map<string, Value>)  // any collections.abc.Mapping
    | Text(s: string)                       // a str
    | FsPath(s: string)                     // a pathlib.Path
    | Unsupported                           // anything else

  /** Where `fetch` takes its configuration from, or the exception raised
      before any store is consulted. */
  datatype Route = Copy(entries: map<string, Value>) | File(path: string) | Zk(key: string) | Failed(error: Error)

  /** `str.replace("\\", "/")`. */
  function Slashes(s: string): (r: string)
    ensures |r| == |s| && '\\' !in r
    ensures forall i :: 0 <= i < |s| ==> r[i] == (if s[i] == '\\' then '/' else s[i])
    decreases |s|
  {
    if s == "" then ""
    else Slashes(s[..|s| - 1]) + [if s[|s| - 1] == '\\' then '/' else s[|s| - 1]]
  }

  /** Lines 67-69: backslashes become `/` and a leading `/` is added when
      missing; indexing the empty string raises IndexError. The key is the
      converted string, preceded by `/` unless it already starts with one. */
  function NormalizeKey(s: string): (r: Result<string>)
    ensures r.Ok? <==> s != ""
    ensures r.Err? ==> r.error == EmptyKey
    ensures r.Ok? ==> r.value != "" && r.value[0] == '/' && '\\' !in r.value
    ensures r.Ok? ==> |s| <= |r.value| <= |s| + 1 && r.value[|r.value| - |s|..] == Slashes(s)
    ensures r.Ok? && |r.value| == |s| + 1 ==> Slashes(s)[0] != '/'
  {
    if s == "" then Err(EmptyKey)
    else
      var p := Slashes(s);
      Ok(if p[0] == '/' then p else "/" + p)
  }

  /** A key that already starts with `/` and has no backslash is kept as it is. */
  lemma NormalKeyUnchanged(s: string)
    requires s != "" && s[0] == '/' && '\\' !in s
    ensures NormalizeKey(s) == Ok(s)
  {
    assert forall i :: 0 <= i < |s| ==> s[i] != '\\' by {
      forall i | 0 <= i < |s| ensures s[i] != '\\' { assert s[i] in s; }
    }
    assert Slashes(s) == s;
  }

  /** Normalising a normalised key changes nothing. */
  lemma NormalizeIdempotent(s: string)
    requires NormalizeKey(s).Ok?
    ensures NormalizeKey(NormalizeKey(s).value) == NormalizeKey(s)
  {
    NormalKeyUnchanged(NormalizeKey(s).value);
  }

  /** The contents of the file at `path`, if it exists. */
  function Content(files: map<string, Bytes>, path: string): Option<Bytes>
  {
    if path in files then Some(files[path]) else None
  }

  /** The dispatch of lines 56-74. A str or Path that names an existing file,
      or has any suffix, is read as a file; any other str is a ZooKeeper key;
      any other Path reaches line 76 with `config` unbound; anything that is
      neither a Mapping, a str nor a Path raises ValueError. */
  function Classify(arg: Arg, files: map<string, Bytes>): (r: Route)
    ensures r.Copy? <==> arg.Mapping?
    ensures r.Copy? ==> r.entries == arg.entries
    ensures r.File? <==> (arg.Text? || arg.FsPath?) && (arg.s in files || Suffix(arg.s) != "")
    ensures r.File? ==> r.path == arg.s
    ensures r.Zk? <==> arg.Text? && arg.s !in files && Suffix(arg.s) == "" && arg.s != ""
    ensures r.Zk? ==> NormalizeKey(arg.s) == Ok(r.key)
    ensures arg.Text? && arg.s !in files && Suffix(arg.s) == "" && arg.s == "" ==> r == Failed(EmptyKey)
    ensures arg.FsPath? && arg.s !in files && Suffix(arg.s) == "" ==> r == Failed(ConfigUnbound)
    ensures arg.Unsupported? ==> r == Failed(BadArgument)
  {
    match arg
    case Mapping(m) => Copy(m)
    case Unsupported => Failed(BadArgument)
    case FsPath(s) =>
      if s in files || Suffix(s) != "" then File(s) else Failed(ConfigUnbound)
    case Text(s) =>
      if s in files || Suffix(s) != "" then File(s)
      else match NormalizeKey(s)
        case Ok(k) => Zk(k)
        case Err(e) => Failed(e)
  }

  /** `dict(**config)`: a copy of a mapping; TypeError for anything else. */
  function AsDict(v: Value): (r: Result<map<string, Value>>)
    ensures r.Ok? <==> v.Dict?
    ensures r.Ok? ==> Dict(r.value) == v
    ensures r.Err? ==> r.error == NotAMapping
  {
    if v.Dict? then Ok(v.entries) else Err(NotAMapping)
  }

  /** Line 76 applied to what the chosen store produced. */
  function DictOf(r: Result<Value>): Result<map<string, Value>>
  {
    match r
    case Err(e) => Err(e)
    case Ok(v) => AsDict(v)
  }

  /** What `zk[path]` inside `with ConfigServer() as zk` yields, by backend:
      the server's read; on the backup, KeyError for a missing key and None
      (ConfigFile.__getitem__ returns nothing) for a present one; or the
      exception of start(). */
  function ZkAnswer(choice: Choice, c: Libraries, root: Tree, backup: map<string, Value>, backupFile: string, key: string): Result<Value>
  {
    match choice
    case Live => ReadNode(c, root, key)
    case Fallback(_) => if key in backup then Ok(Null) else Err(KeyNotFound(key, LocalFile(backupFile)))
    case Raised => Err(StartFailed)
  }

  /** Whenever the backup stands in for the server, `fetch` of a key fails:
      KeyError naming the backup file for a key it lacks, and TypeError (from
      `dict(**None)`) for a key it has. */
  lemma FallbackFetchFails(choice: Choice, c: Libraries, root: Tree, backup: map<string, Value>, backupFile: string, key: string)
    requires choice.Fallback?
    ensures key !in backup ==> DictOf(ZkAnswer(choice, c, root, backup, backupFile, key)) == Err(KeyNotFound(key, LocalFile(backupFile)))
    ensures key in backup ==> DictOf(ZkAnswer(choice, c, root, backup, backupFile, key)) == Err(NotAMapping)
  {
  }

  /** On the server, `fetch` of a key succeeds exactly when the node reads as
      a mapping, and then returns that mapping. */
  lemma LiveFetch(c: Libraries, root: Tree, backup: map<string, Value>, backupFile: string, key: string)
    ensures DictOf(ZkAnswer(Live, c, root, backup, backupFile, key)).Ok? <==>
              ReadNode(c, root, key).Ok? && ReadNode(c, root, key).value.Dict?
    ensures DictOf(ZkAnswer(Live, c, root, backup, backupFile, key)).Ok? ==>
              Ok(Dict(DictOf(ZkAnswer(Live, c, root, backup, backupFile, key)).value)) == ReadNode(c, root, key)
  {
  }

  /** A mapping written with `dump_file` is what `fetch` returns for its path. */
  lemma FetchAfterDump(c: Libraries, m: map<string, Value>, path: string, files: map<string, Bytes>)
    requires RoundTrips(c)
    requires DumpFile(c, Dict(m), path, true).Wrote?
    requires path in files && files[path] == DumpFile(c, Dict(m), path, true).bytes
    ensures Classify(Text(path), files) == File(path)
    ensures DictOf(FromFile(c, path, Content(files, path))) == Ok(m)
  {
    DumpThenRead(c, m, path);
  }

  /** A key-like string whose last component has a dot is read as a file,
      not looked up in ZooKeeper. */
  lemma DottedKeyIsAFile(files: map<string, Bytes>)
    ensures Classify(Text("/rigs/NP.1"), files) == File("/rigs/NP.1")
  {
    DottedKeyHasSuffix();
  }

  /** A dot-free string that names no file is a ZooKeeper key. */
  lemma DotFreeIsAKey(s: string, files: map<string, Bytes>)
    requires s != "" && '.' !in s && s !in files
    ensures NormalizeKey(s).Ok? && Classify(Text(s), files) == Zk(NormalizeKey(s).value)
  {
    DotFreeHasNoSuffix(s);
  }

  /** A dot-free key that is not a file is looked up in ZooKeeper as written. */
  lemma PlainKeyIsAKey(files: map<string, Bytes>)
    requires "/rigs/NP" !in files
    ensures Classify(Text("/rigs/NP"), files) == Zk("/rigs/NP")
  {
    DotFreeIsAKey("/rigs/NP", files);
    NormalKeyUnchanged("/rigs/NP");
  }

  /** A Windows-style relative key is turned into the ZooKeeper key. */
  lemma BackslashKeyIsAKey(files: map<string, Bytes>)
    requires "rigs\\NP" !in files
    ensures Classify(Text("rigs\\NP"), files) == Zk("/rigs/NP")
  {
    DotFreeIsAKey("rigs\\NP", files);
    BackslashKey();
  }

  lemma BackslashKey()
    ensures NormalizeKey("rigs\\NP") == Ok("/rigs/NP")
  {
    var s := "rigs\\NP";
    var p := Slashes(s);
    assert forall i :: 0 <= i < |s| ==> p[i] == "rigs/NP"[i];
    assert p == "rigs/NP" && p[0] != '/';
    assert "/" + p == "/rigs/NP";
  }

  /** `from_zk(path)`: `with ConfigServer() as zk: return zk[path]`. When the
      probe fails, `ConfigServer()` is the backup file, whose `__exit__` writes
      it; when start() fails before connecting, `__enter__` gives the backup but
      `__exit__` is the client's stop(), so the backup file is not written. */
  method FromZk(key: string, reachable: bool, start: StartOutcome,
                ensemble: Ensemble, backup: ConfigFile, record: ConfigFile, codec: Libraries) returns (r: Result<Value>)
    requires backup != record && backup.Dumpable() && record.Dumpable()
    modifies backup, record
    ensures r == ZkAnswer(Arbitrate(reachable, start), codec, ensemble.root, old(backup.data), backup.file, key)
    ensures backup.data == old(backup.data)
    ensures backup.disk == if !reachable then Persist(backup.codec, backup.file, backup.writable, old(backup.disk), backup.data).0
                           else old(backup.disk)
    ensures record.data == if Arbitrate(reachable, start) == Live && r.Ok? then old(record.data)[key := r.value]
                           else old(record.data)
    ensures record.disk == if Arbitrate(reachable, start) == Live && r.Ok?
                           then Persist(record.codec, record.file, record.writable, old(record.disk), record.data).0
                           else old(record.disk)
  {
    var created := Construct(reachable, ensemble, backup, record, codec, false);
    match created
    case BackupInstead(f) =>
      r := BackupGet(f, key);
    case Client(zk) =>
      r := ScopedGet(zk, key, start);
  }

  /** `with backup as zk: return zk[path]` when `ConfigServer()` is the
      backup file: its `__getitem__`, then its `__exit__`, which writes it; an
      exception of that write replaces whatever the read gave. */
  method BackupGet(f: ConfigFile, key: string) returns (r: Result<Value>)
    modifies f`disk
    ensures f.disk == Persist(f.codec, f.file, f.writable, old(f.disk), f.data).0
    ensures Persist(f.codec, f.file, f.writable, old(f.disk), f.data).1.Some? ==>
              r == Err(Persist(f.codec, f.file, f.writable, old(f.disk), f.data).1.value)
    ensures Persist(f.codec, f.file, f.writable, old(f.disk), f.data).1.None? ==>
              r == (if key in f.data then Ok(Null) else Err(KeyNotFound(key, LocalFile(f.file))))
    ensures f.Dumpable() ==> r == (if key in f.data then Ok(Null) else Err(KeyNotFound(key, LocalFile(f.file))))
  {
    var got := f.Get(key);
    var err := f.Exit();
    r := if err.Some? then Err(err.value) else got;
    PersistOutcomes(f.codec, f.file, f.writable, old(f.disk), f.data);
  }

  /** `with zk: return zk[path]` on a fresh client: the read goes to the
      server or to the backup that `__enter__` hands out, and `__exit__`
      stops the client. */
  method ScopedGet(zk: ConfigServer, key: string, start: StartOutcome) returns (r: Result<Value>)
    requires zk.Valid()
    modifies zk, zk.record
    ensures r == ZkAnswer(Arbitrate(true, start), zk.codec, zk.ensemble.root, zk.backup.data, zk.backup.file, key)
    ensures zk.record.data == if Arbitrate(true, start) == Live && r.Ok? && !zk.disableRecordKeeping
                              then old(zk.record.data)[key := r.value] else old(zk.record.data)
    ensures zk.record.disk == if Arbitrate(true, start) == Live && r.Ok? && !zk.disableRecordKeeping
                              then Persist(zk.record.codec, zk.record.file, zk.record.writable, old(zk.record.disk), zk.record.data).0
                              else old(zk.record.disk)
    ensures zk.connected <==> start == StartRaised(true)
  {
    var h := zk.Enter(start);
    if h.Err? {
      r := Err(h.error);
      return;
    }
    match h.value {
      case Remote(s) =>
        r := s.Get(key);
      case Local(f) =>
        r := f.Get(key);
    }
    zk.Exit();
  }

  /** `fetch(arg)`: the routed store's answer, through `dict(**config)`.
      Only a ZooKeeper key touches the shared files. */
  method Fetch(arg: Arg, files: map<string, Bytes>, reachable: bool, start: StartOutcome,
               ensemble: Ensemble, backup: ConfigFile, record: ConfigFile, codec: Libraries) returns (r: Result<map<string, Value>>)
    requires backup != record && backup.Dumpable() && record.Dumpable()
    modifies backup, record
    ensures !Classify(arg, files).Zk? ==> unchanged(backup, record)
    ensures Classify(arg, files).Copy? ==> r == Ok(Classify(arg, files).entries)
    ensures Classify(arg, files).File? ==> r == DictOf(FromFile(codec, arg.s, Content(files, arg.s)))
    ensures Classify(arg, files).Failed? ==> r == Err(Classify(arg, files).error)
    ensures Classify(arg, files).Zk? ==>
              r == DictOf(ZkAnswer(Arbitrate(reachable, start), codec, ensemble.root, old(backup.data), backup.file,
                                   Classify(arg, files).key))
    ensures Classify(arg, files).Zk? ==>
              var live := Arbitrate(reachable, start) == Live && ReadNode(codec, ensemble.root, Classify(arg, files).key).Ok?;
              && backup.data == old(backup.data)
              && backup.disk == (if !reachable then Persist(backup.codec, backup.file, backup.writable, old(backup.disk), backup.data).0
                                 else old(backup.disk))
              && record.data == (if live then old(record.data)[Classify(arg, files).key := ReadNode(codec, ensemble.root, Classify(arg, files).key).value]
                                 else old(record.data))
              && record.disk == (if live then Persist(record.codec, record.file, record.writable, old(record.disk), record.data).0
                                 else old(record.disk))
  {
    match Classify(arg, files)
    case Copy(m) =>
      r := Ok(m);
    case File(p) =>
      r := DictOf(FromFile(codec, p, Content(files, p)));
    case Failed(e) =>
      r := Err(e);
    case Zk(key) =>
      var v := FromZk(key, reachable, start, ensemble, backup, record, codec);
      r := DictOf(v);
  }
}
