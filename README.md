# np_config configuration accessor, modelled in Dafny

This project models the configuration accessor of `np_config`. The accessor
gives one entry point, `fetch`, which returns a configuration mapping from one
of three sources: an in-memory mapping, a YAML/JSON file, or a node of the
ZooKeeper hierarchy on the Mindscope server. The model covers:

- **Codec** (`codec.dfy`): how `pathlib` derives a path's suffix under POSIX rules (`PurePosixPath`); which suffixes
  `from_file` reads and `dump_file` writes; and what each of them leaves behind
  or raises. The YAML and JSON libraries are a pair of uninterpreted functions.
  Where it is needed, a `RoundTrips` predicate says that what is dumped loads
  back unchanged.
- **ConfigFile** (`local_store.dfy`): a class with a `data` map and a `disk`
  snapshot field. Every `__setitem__`, `__delitem__` and `__exit__` rewrites the
  whole file. An OSError during the write is swallowed, and an unsupported
  suffix leaves an emptied file behind.
- **The remote hierarchy** (`zk_tree.dfy`): a finite tree of named children.
  It comes with the client's path syntax, lookup, `set` (with `ensure_path`)
  and `delete`.
- **ConfigServer** (`server.dfy`): a class holding the connection state and the
  two shared files. The choice between the live server and the shared backup,
  made by `__new__` and `__enter__`, is an explicit tagged union.
  - Reads are decoded with `or {}`.
  - Successful reads and writes go into the session record, but only when
    record keeping is on.
- **backup_zk** (`backup.dfy`): the walk is a method with a loop, recursion and
  writes, proved against three specification functions: `Visit`, `WalkKids`
  and `Run`.
  - A KeyError skips a child.
  - A truthy document is backed up at its own path.
  - An empty document is a container that the walk descends into.
  - Any other exception ends the walk.
- **fetch / from_zk** (`resolver.dfy`): the classification of the argument, the
  normalisation of a ZooKeeper key, and `dict(**config)`.
- **The freshness gate** (`freshness.dfy`): the package's import-time check
  that refreshes the backup when its file is missing or more than seven days
  old.

Two behaviours of the code are easy to miss. The model follows the code:

- **Dotted keys go to the file reader.** `fetch` sends any string with a suffix
  to it, so a key-like string such as `/rigs/NP.1` is read as a file and never
  looked up in ZooKeeper (`Resolver.DottedKeyIsAFile`).
- **The backup cannot serve a key.** `ConfigFile.__getitem__` (line 136) drops
  the value it looks up. So whenever the backup stands in for the server,
  `from_zk` gives None for a key the backup has, and `fetch` then fails with a
  TypeError (`Resolver.FallbackFetchFails`).

The freshness gate imports `LOCAL_ZK_BACKUP_FILE`, but the module defines
`LOCAL_ZK_BACKUP_PATH`. Both are taken to be the shared backup file.

## Model

| member | source | states |
|---|---|---|
| Values.OrEmpty | src/np_config.py:47-49 | `v or dict()`: a truthy document is kept, a falsy one becomes `{}`, and the result is never None |
| Values.ApplyAll | src/np_config.py:244 | a sequence of upserts leaves exactly the old keys plus the written keys |
| Values.ApplyAllLastWins | src/np_config.py:142-145 | after repeated upserts, a key nobody wrote keeps its value and a key written last holds the last value |
| Values.ApplyAllAppend | src/np_config.py:244 | two rounds of upserts are the upserts of both in order |
| Codec.SuffixShape | src/np_config.py:62 | a non-empty suffix is a dot followed by at least one character, all free of dots and slashes, ending the last path component without being all of it |
| Codec.DotFreeHasNoSuffix | src/np_config.py:62 | a path without a dot has no suffix |
| Codec.DottedKeyHasSuffix | src/np_config.py:62 | `/rigs/NP.1` has the suffix `.1` |
| Codec.ReadFormat | src/np_config.py:46-49 | the format `from_file` reads a suffix in: YAML for `.yaml` and `.yml`, JSON for `.json`, and none for any other suffix |
| Codec.DumpFormat | src/np_config.py:83-88 | `dump_file` encodes only `.yaml` and `.json`; each is read back in the same format; `.yml` is readable but not writable |
| Codec.FromFile | src/np_config.py:43-50 | a missing file fails before the suffix is looked at; a suffix other than `.yaml`/`.yml`/`.json` raises ValueError; otherwise the result is the decoded document with a falsy one replaced by `{}`, and it is truthy or `{}` |
| Codec.DumpFile | src/np_config.py:79-88 | what `dump_file` leaves: an OSError when the file cannot be opened, the encoding for `.yaml`/`.json`, and otherwise an emptied file (its properties are `Codec.DumpFileOutcomes`) |
| Codec.DumpFileOutcomes | src/np_config.py:79-88 | OSError exactly when the file cannot be opened; the encoding exactly when it can and the suffix is `.yaml`/`.json`; otherwise an emptied file and ValueError |
| Codec.DumpThenRead | src/np_config.py:79-88 | a mapping written by `dump_file` is read back by `from_file` unchanged |
| LocalStore.Persist | src/np_config.py:117-131 | one `write()` of the whole mapping: the new disk and the escaping exception, with OSError swallowed (its properties are `LocalStore.PersistOutcomes`) |
| LocalStore.PersistOutcomes | src/np_config.py:117-131 | `write()` keeps the old disk on OSError and raises nothing; it stores the encoding for a dumpable suffix and raises nothing; otherwise it empties the file and raises ValueError |
| LocalStore.PersistLastWins | src/np_config.py:117-131 | two writes in a row leave the disk as the second one alone would |
| LocalStore.AfterWritesTwice | src/np_config.py:117-131 | two rounds of writes leave the disk of one round that ends with the later mapping |
| LocalStore.LoadData | src/np_config.py:111-115 | a missing file loads as `{}`; an existing one loads exactly when `from_file` succeeds with a mapping, and then as that mapping |
| LocalStore.ReloadAfterPersist | src/np_config.py:111-131 | a mapping that `write()` persisted is what a new ConfigFile on the same file loads |
| LocalStore.ConfigFile.constructor | src/np_config.py:111-115 | the new object has the file, the disk snapshot, and the loaded mapping as its data |
| LocalStore.ConfigFile.Write | src/np_config.py:117-131 | the new disk and the escaping exception are those of one write of the whole mapping; a dumpable file never raises |
| LocalStore.ConfigFile.Get | src/np_config.py:133-140 | succeeds exactly for a present key and then yields None; a missing key raises KeyError naming the file |
| LocalStore.ConfigFile.Set | src/np_config.py:142-145 | data becomes the old mapping with the key upserted, and no other key changes; the disk is one write of the new mapping; an OSError leaves the old disk and the new data |
| LocalStore.ConfigFile.Delete | src/np_config.py:147-156 | a present key is removed and the mapping written; a missing key raises KeyError naming the file and changes neither data nor disk |
| LocalStore.ConfigFile.Exit | src/np_config.py:161-162 | leaving a `with` block writes the whole mapping |
| LocalStore.Open | src/np_config.py:111-115 | construction succeeds exactly when the file loads, with the loading error otherwise |
| ZkTree.Find | src/np_config.py:193 | the position of the first child with a name, or none exactly when no child has it |
| ZkTree.Names | src/np_config.py:237 | `get_children` lists the children's names in order |
| ZkTree.Join | src/np_config.py:238 | the child path of line 238: the name after the parent and one `/`, with no second `/` under the root |
| ZkTree.JoinComponents | src/np_config.py:238 | joining a valid name onto a valid path adds exactly that component, under the root and elsewhere |
| ZkTree.ComponentsNoDoubleSlash | src/np_config.py:238 | a valid ZooKeeper path contains no `//` |
| ZkTree.ChildPathIsValid | src/np_config.py:238 | the child path built from a valid parent has the parent's components plus the name, and contains no `//` |
| ZkTree.JoinAllComponents | src/np_config.py:238 | the path the walk builds level by level has exactly the components added, so it is the node's ZooKeeper path |
| ZkTree.LookupChild | src/np_config.py:237-238 | a listed child of a well-formed tree is found at its joined path |
| ZkTree.LookupSetSame | src/np_config.py:202-203 | after `ensure_path` and `set`, the target exists and holds the new data |
| ZkTree.LookupSetOther | src/np_config.py:202-203 | a set changes no path that is not an ancestor of the target |
| ZkTree.SetWellFormed | src/np_config.py:202-203 | a set keeps child names valid and distinct |
| ZkTree.LookupRemoveSame | src/np_config.py:208 | after a delete the node is gone |
| ZkTree.LookupRemoveOther | src/np_config.py:208 | a delete changes no path that is neither an ancestor nor a descendant of the deleted node |
| ZkTree.RemoveWellFormed | src/np_config.py:208 | a delete keeps child names valid and distinct |
| Server.Arbitrate | src/np_config.py:177-221 | which object a `with ConfigServer()` block works on: the backup for an unreachable host, the client when start() returns, the backup when it fails unconnected, an exception when it fails connected (its table is `Server.ArbitrationTable`) |
| Server.ArbitrationTable | src/np_config.py:177-221 | the server is used exactly when the host answers and start() returns; the backup exactly when the host does not answer or start() fails unconnected; an exception exactly when start() fails connected; and start() does not matter for an unreachable host |
| Server.ReadNode | src/np_config.py:191-197 | the `get` of a key: KeyError for an invalid path, a missing or an unreadable node, otherwise the YAML of its data with falsy as `{}`, or the parser's error (its properties are `Server.ReadNodeOutcomes`) |
| Server.ReadNodeOutcomes | src/np_config.py:191-199 | a read raises KeyError exactly for an invalid path, a missing node or an unreadable node; any other failure is the parser's; a success is the decoded document with falsy as `{}`, never None |
| Server.EmptyNodeReadsEmptyMapping | src/np_config.py:197 | a node without data reads as `{}` |
| Server.SetThenRead | src/np_config.py:201-204 | after `zk[k] = v`, reading `k` gives `v or {}`, and every path that is not an ancestor of `k` reads as before |
| Server.Construct | src/np_config.py:177-181 | for an unreachable host, `ConfigServer()` is the shared backup itself; otherwise it is a fresh, unconnected client over the shared files |
| Server.ConfigServer.constructor | src/np_config.py:183-185 | a new client is not connected and keeps the record-keeping flag |
| Server.ConfigServer.Enter | src/np_config.py:212-221 | start() returning gives the server; start() failing unconnected gives the backup; start() failing connected raises RuntimeError, from the bare `raise` of line 221 outside its except clause |
| Server.ConfigServer.Exit | src/np_config.py:223-224 | stop() leaves the client unconnected |
| Server.ConfigServer.UpdateSessionRecord | src/np_config.py:187-189 | the record gets the key, and is written, exactly when record keeping is on; the write's ValueError for a record file `dump_file` refuses escapes, and a dumpable record never raises |
| Server.ConfigServer.Get | src/np_config.py:191-199 | an unconnected client or a failed `get` raises KeyError, and node data YAML rejects raises the parser's error; neither records anything; a successful read records the document exactly when record keeping is on, and yields it unless that record write raises, whose error then escapes; with a dumpable record the result is exactly the read |
| Server.ConfigServer.Set | src/np_config.py:201-204 | for a connected client and a valid path the tree becomes the old tree with the target set to the YAML of `value or {}`, the record gets `value` exactly when record keeping is on, and the record write's error escapes; otherwise it raises the client's error and nothing changes |
| Server.ConfigServer.Delete | src/np_config.py:206-210 | a deletable node is removed; anything else raises KeyError and leaves the tree as it was; the record is outside its frame |
| Server.ConfigServer.GetChildren | src/np_config.py:237 | lists the children of an existing node, and raises for an unconnected client, an invalid path or a missing node |
| Backup.Visit | src/np_config.py:238-246 | what one pass of the loop does for a child: skip it on KeyError, stop on any other exception, back up a truthy document at its path, or fetch `{}` and descend (proved about in `Backup.VisitSound` and `Backup.VisitDispatch`) |
| Backup.WalkKids | src/np_config.py:237-246 | the loop over the children in order, stopping at the first exception (proved about in `Backup.WalkKidsSound` and `Backup.FailureSticks`) |
| Backup.Run | src/np_config.py:247-248 | `with zk: backup(zk)`: the walk from `/` when start() returns, otherwise the exception of `__enter__` or of the first `get_children` (proved about in `Backup.RunSound` and `Backup.RunComplete`) |
| Backup.UnreadableSkipped | src/np_config.py:239-242 | a child whose read raises KeyError contributes nothing |
| Backup.VisitDispatch | src/np_config.py:243-246 | a truthy document is backed up at its own path and not descended into; an empty one is `{}`, is not backed up, and its children are walked |
| Backup.FailureSticks | src/np_config.py:237-246 | after an exception the walk does nothing further |
| Backup.VisitSound | src/np_config.py:238-246 | everything one child's visit fetched was read at its path; everything it backed up is truthy and was fetched |
| Backup.WalkKidsSound | src/np_config.py:237-246 | the same holds for the walk over a list of children |
| Backup.RunSound | src/np_config.py:236-248 | every backed-up entry is a truthy document read at its own path, which is a valid ZooKeeper path without `//` (completeness is `Backup.RunComplete`) |
| Backup.WalkKidsContains | src/np_config.py:237-246 | a loop without an exception holds every backup write of each child's visit, and no child's visit raised |
| Backup.VisitReaches | src/np_config.py:239-246 | a node below a visited one whose document is truthy, reached through nodes that all read as `{}`, is backed up at the path the walk builds for it, with that document |
| Backup.RunComplete | src/np_config.py:227-248 | completeness: after a walk from `/` without an exception, every node whose document is truthy and whose proper ancestors below the root read as `{}` is in the backup at its own path with its document |
| Backup.BackedUpKeysRecorded | src/np_config.py:244 | for any walk outcome whose backed-up entries were all fetched, the keys the upserts add to the backup are among the keys the fetched upserts leave in the record |
| Backup.RunKeysRecorded | tests/test_main.py:16-24 | for a client with record keeping on, every key the walk adds to the backup is in the session record afterwards, and when the backup started empty every backup key is |
| Backup.Walk | src/np_config.py:236-246 | the loop over `get_children(parent)` ends with the specified walk's exception and leaves the backup and the record as that walk's writes make them, on the `.yaml` shared files of lines 28 and 32 |
| Backup.VisitChild | src/np_config.py:238-246 | one loop pass changes the files exactly as the specified visit of that child, and its exception is the error of the visit (the backup write's result is kept, and it cannot raise on the `.yaml` backup) |
| Backup.BackupWith | src/np_config.py:247-248 | `with zk: backup(zk)` yields the run's exception and file changes for each start() outcome, and leaves the client connected only when start() failed connected |
| Backup.Replaced | src/np_config.py:229 | `not zk`: no argument, or the backup file while it is empty; a client is never replaced |
| Backup.BackupZk | src/np_config.py:227-248 | returns at once when the target is the backup file; otherwise its own client (record keeping off) changes only the backup, and a given client changes both files as the run does |
| Freshness.Stale | src/__init__.py:5-10 | stale when the file is missing or strictly more than seven days old, and not stale otherwise |
| Freshness.FreshForAWeek | src/__init__.py:7-9 | fresh from the modification time up to and including seven days later, and for a future modification time; stale after that |
| Freshness.StaleStaysStale | src/__init__.py:7-9 | a stale backup that is not rewritten stays stale later |
| Freshness.OnImport | src/__init__.py:5-11 | at most one `backup_zk()`, made exactly when the backup is stale, with the effects of `BackupZk(None)` |
| Resolver.Slashes | src/np_config.py:67 | every backslash becomes `/` and every other character is kept |
| Resolver.NormalizeKey | src/np_config.py:67-69 | an empty string raises IndexError; otherwise the key starts with `/`, has no backslash, and is the converted string with `/` prepended exactly when it did not already start with one |
| Resolver.NormalKeyUnchanged | src/np_config.py:67-69 | a key that starts with `/` and has no backslash is kept as it is |
| Resolver.NormalizeIdempotent | src/np_config.py:67-69 | normalising twice is normalising once |
| Resolver.Classify | src/np_config.py:53-74 | a mapping is copied; a str or Path goes to the file reader exactly when it names a file or has a suffix; only a non-empty, suffix-free, non-file str becomes a ZooKeeper key, namely its normalised form; a Path that is neither leaves `config` unbound; anything else raises ValueError |
| Resolver.AsDict | src/np_config.py:76 | `dict(**config)` succeeds exactly for a mapping and copies it exactly; anything else is a TypeError |
| Resolver.ZkAnswer | src/np_config.py:37-40 | what `from_zk` answers for the chosen object: the server's read, the backup's `__getitem__` (lines 133-140: None for a present key, KeyError otherwise), or the exception of `__enter__` |
| Resolver.FallbackFetchFails | src/np_config.py:133-140 | when the backup stands in for the server, fetching a key raises KeyError naming the backup file, or TypeError if the backup has the key |
| Resolver.LiveFetch | src/np_config.py:37-40 | on the server, fetching a key succeeds exactly when the node reads as a mapping, and returns that mapping |
| Resolver.FetchAfterDump | src/np_config.py:62-63 | a mapping written with `dump_file` is what `fetch` returns for its path |
| Resolver.DottedKeyIsAFile | src/np_config.py:62-63 | `/rigs/NP.1` is read as a file, whether or not it exists |
| Resolver.DotFreeIsAKey | src/np_config.py:65-70 | a non-empty dot-free string that names no file is looked up as its normalised key |
| Resolver.PlainKeyIsAKey | src/np_config.py:65-70 | `/rigs/NP` is looked up as written |
| Resolver.BackslashKey | src/np_config.py:67-69 | `rigs\NP` normalises to `/rigs/NP` |
| Resolver.BackslashKeyIsAKey | src/np_config.py:65-70 | `rigs\NP` is looked up as `/rigs/NP` |
| Resolver.BackupGet | src/np_config.py:39-40 | leaving the scope writes the backup; an exception of that write replaces the read; otherwise the read gives None for a present key and KeyError for a missing one |
| Resolver.ScopedGet | src/np_config.py:39-40 | on a fresh client the read is the answer of the chosen backend; the record changes only after a successful live read with record keeping on; `__exit__` stops the client unless `__enter__` raised |
| Resolver.FromZk | src/np_config.py:37-40 | the answer of the backend that the arbitration chose; the backup file is rewritten exactly when the host did not answer; the record gets the key exactly after a successful live read |
| Resolver.Fetch | src/np_config.py:53-76 | the copy, the file's mapping, the ZooKeeper answer through `dict(**…)`, or the routing error, by route; only a ZooKeeper key touches the shared files: the backup is rewritten exactly when the host does not answer, and the record gets the key exactly after a successful live read |

## Left out

- `host_responsive` (the `ping` subprocess) is an input: `reachable`.
- The Kazoo client's networking, sessions, timeouts and wire protocol are left out. The server is a finite tree in an `Ensemble` object, and `start()` is an input outcome.
- The YAML and JSON libraries, and the order-preserving representer, are uninterpreted `load`/`dump` functions. Key order is not modelled.
- Codec.FromFile: `json.load(f, path)` (line 49) passes an argument that `json.load` does not accept. The model reads `.json` with the intended decoder instead of raising TypeError.
- The class-level `threading.Lock` is left out: the model is sequential, and each write is a single step.
- `mkdir`, `touch` and `resolve()` are left out. Paths are compared as written, and `is_file` is membership in a map from path to file contents.
- LocalStore.ConfigFile.Write: an OSError is a per-file `writable` flag rather than a per-call choice. The `touch` of an absent file before the write is not modelled.
- The timestamp-and-directory-based name of the session record file is left out, and so are logging and the import-time `backup_zk()` call of the module itself.
- LocalStore.LoadData: a file that decodes to a non-mapping is refused (`NotAMapping`). The source would keep such a value as `data`.
- Mapping keys are strings. ZooKeeper node data is decoded as YAML only.
- Freshness.Stale: times are integers in microseconds on one clock. Time zones and daylight-saving changes of `fromtimestamp` are not modelled.
- Codec.Suffix: suffixes follow POSIX path rules (`PurePosixPath`), where only `/` separates components. On Windows `\` separates them too, so `rigs.old\NP` there has no suffix and goes to ZooKeeper as `/rigs.old/NP`. The model gives it the suffix `.old\NP` and reads it as a file.
- Backup.Walk: the tree is required to be well formed (valid, distinct child names), as the server guarantees.
- Backup.Walk, Backup.VisitChild and Resolver.ScopedGet require the shared backup and record files to accept writes by suffix, as lines 28 and 32 give them `.yaml` names. The ValueError that a refused suffix would raise is returned by the server and ConfigFile methods, but it is not part of the walk's specification functions.
- `ConfigFile.__enter__` returning itself is implicit. The `with` statements are written out as their `__enter__` and `__exit__` calls.
- `src/np_config/rigs.py`, which fetches rig data over HTTP at import time, is not part of this model.
