/** `ConfigServer` (src/np_config.py:166-224): a dictionary view of the
    ZooKeeper hierarchy that falls back to the shared local backup when the
    server cannot be reached, and logs every successful read or write in the
    session record. Which backend a scope uses is an explicit tagged union
    (`Created`, `Handle`, `Choice`) rather than a substituted object. */
module Server {
  import opened Values
  import opened Codec
  import opened ZkTree
  import opened LocalStore

  /** The ZooKeeper ensemble: the hierarchy every session talks to. */
  class Ensemble {
    var root: Tree

    constructor (root: Tree)
      ensures this.root == root
    {
      this.root := root;
    }
  }

  /** How `start(timeout=1)` ended: it returned, or it raised while the
      client was or was not connected. */
  datatype StartOutcome = Started | StartRaised(connected: bool)

  /** The backend a `with ConfigServer() as zk` scope ends up with. */
  datatype Choice =
    | Live                        // the server object itself
    | Fallback(unreachable: bool) // the shared backup: by the probe, or after start() failed
    | Raised                      // start() failed while connected: line 221 raises

  /** The arbitration of `__new__` (lines 177-181) and `__enter__` (lines
      212-221); `reachable` is the answer of the ping probe. */
  function Arbitrate(reachable: bool, start: StartOutcome): Choice
  {
    if !reachable then Fallback(true)
    else match start
      case Started => Live
      case StartRaised(connected) => if connected then Raised else Fallback(false)
  }

  /** The whole arbitration table: the server is used exactly when the host
      answers and start() returns; the backup exactly when the host does not
      answer or start() fails before a connection exists; an exception escapes
      exactly when start() fails on a connected client; and start() does not
      matter when the host does not answer. */
  lemma ArbitrationTable(reachable: bool, start: StartOutcome)
    ensures Arbitrate(reachable, start) == Live <==> reachable && start == Started
    ensures Arbitrate(reachable, start).Fallback? <==> !reachable || start == StartRaised(false)
    ensures Arbitrate(reachable, start) == Raised <==> reachable && start == StartRaised(true)
    ensures !reachable ==> forall s :: Arbitrate(reachable, s) == Arbitrate(reachable, start)
  {
  }

  /** What `get` plus the decoding of line 197 give for a key. */
  function ReadNode(c: Libraries, root: Tree, key: string): Result<Value>
  {
    match Components(key)
    case None => Err(KeyNotFound(key, ZooKeeper))
    case Some(cs) =>
      match Lookup(root, cs)
      case None => Err(KeyNotFound(key, ZooKeeper))
      case Some(n) =>
        if !n.readable then Err(KeyNotFound(key, ZooKeeper))
        else match c.load(Yaml, n.data)
          case None => Err(Malformed)
          case Some(v) => Ok(OrEmpty(v))
  }

  /** A read raises KeyError exactly for a key that is not a valid path, a
      missing node or a node the server refuses to read; otherwise it fails
      only when the parser rejects the data, and it yields the decoded
      document with a falsy one replaced by `{}`. */
  lemma ReadNodeOutcomes(c: Libraries, root: Tree, key: string)
    ensures ReadNode(c, root, key).Err? && ReadNode(c, root, key).error.KeyNotFound? <==>
              Components(key).None? || Lookup(root, Components(key).value).None?
              || !Lookup(root, Components(key).value).value.readable
    ensures ReadNode(c, root, key).Err? ==>
              ReadNode(c, root, key).error in {KeyNotFound(key, ZooKeeper), Malformed}
    ensures ReadNode(c, root, key).Ok? ==>
              && Components(key).Some? && Lookup(root, Components(key).value).Some?
              && c.load(Yaml, Lookup(root, Components(key).value).value.data).Some?
              && ReadNode(c, root, key).value
                 == OrEmpty(c.load(Yaml, Lookup(root, Components(key).value).value.data).value)
    ensures ReadNode(c, root, key).Ok? ==> ReadNode(c, root, key).value != Null
  {
  }

  /** A node with no data reads as `{}` (YAML parses the empty document as
      None, line 197 turns it into a mapping). */
  lemma EmptyNodeReadsEmptyMapping(c: Libraries, root: Tree, key: string)
    requires c.load(Yaml, []) == Some(Null)
    requires Components(key).Some? && Lookup(root, Components(key).value).Some?
    requires Lookup(root, Components(key).value).value.readable
    requires Lookup(root, Components(key).value).value.data == []
    ensures ReadNode(c, root, key) == Ok(Dict(map[]))
  {
  }

  /** Strong consistency of `zk[k] = v` then `zk[k]`: for a target that is
      new or readable, the value read back is `v or {}`, and a set leaves every
      path that is not an ancestor of the target as it was. */
  lemma SetThenRead(c: Libraries, root: Tree, key: string, v: Value, other: string)
    requires RoundTrips(c)
    requires Components(key).Some?
    requires Lookup(root, Components(key).value).None? || Lookup(root, Components(key).value).value.readable
    ensures ReadNode(c, SetAt(root, Components(key).value, c.dump(Yaml, OrEmpty(v))), key).Ok?
    ensures ReadNode(c, SetAt(root, Components(key).value, c.dump(Yaml, OrEmpty(v))), key).value == OrEmpty(v)
    ensures Components(other).Some? && !(Components(other).value <= Components(key).value) ==>
              ReadNode(c, SetAt(root, Components(key).value, c.dump(Yaml, OrEmpty(v))), other) == ReadNode(c, root, other)
  {
    var cs := Components(key).value;
    var d := c.dump(Yaml, OrEmpty(v));
    LookupSetSame(root, cs, d);
    assert c.load(Yaml, d) == Some(OrEmpty(v));
    assert OrEmpty(OrEmpty(v)) == OrEmpty(v);
    var n := Lookup(SetAt(root, cs, d), cs).value;
    assert n.readable by { LookupSetReadable(root, cs, d); }
    if Components(other).Some? && !(Components(other).value <= cs) {
      LookupSetOther(root, cs, d, Components(other).value);
    }
  }

  /** A set keeps the target readable or creates it readable. */
  lemma {:induction false} LookupSetReadable(t: Tree, cs: seq<string>, d: Bytes)
    ensures Lookup(SetAt(t, cs, d), cs).Some?
    ensures Lookup(SetAt(t, cs, d), cs).value.readable == (Lookup(t, cs).None? || Lookup(t, cs).value.readable)
    decreases |cs|
  {
    LookupSetSame(t, cs, d);
    if cs != [] {
      var t' := SetAt(t, cs, d);
      match Find(t.children, cs[0])
      case Some(i) =>
        FindAfterUpdate(t.children, i, t'.children[i], cs[0]);
        LookupSetReadable(t.children[i].node, cs[1..], d);
      case None =>
        FindAfterAppend(t.children, t'.children[|t.children|], cs[0]);
        LookupSetReadable(Fresh, cs[1..], d);
        FreshLookup(cs[1..]);
    }
  }

  lemma FreshLookup(cs: seq<string>)
    ensures Lookup(Fresh, cs).None? || Lookup(Fresh, cs).value.readable
  {
  }

  /** The node `delete` would remove: an existing childless node other than
      the root (the client refuses the root and nodes with children). */
  predicate Deletable(root: Tree, key: string)
  {
    && Components(key).Some?
    && Components(key).value != []
    && Lookup(root, Components(key).value).Some?
    && Lookup(root, Components(key).value).value.children == []
  }

  /** What `ConfigServer()` evaluates to (`__new__`, lines 177-181). */
  datatype Created = BackupInstead(file: ConfigFile) | Client(server: ConfigServer)

  /** What `__enter__` returns (lines 212-221). */
  datatype Handle = Remote(server: ConfigServer) | Local(file: ConfigFile)

  class ConfigServer {
    const ensemble: Ensemble
    /** The shared full backup (line 172). */
    const backup: ConfigFile
    /** The shared session record (line 174). */
    const record: ConfigFile
    const codec: Libraries
    const disableRecordKeeping: bool
    var connected: bool

    /** Both shared files are distinct and have the `.yaml` suffix of
        lines 28 and 32, so writing them never raises. */
    ghost predicate Valid()
    {
      backup != record && backup.Dumpable() && record.Dumpable()
    }

    /** `__init__` (lines 183-185): no connection is opened yet. */
    constructor (ensemble: Ensemble, backup: ConfigFile, record: ConfigFile, codec: Libraries, disableRecordKeeping: bool)
      requires backup != record && backup.Dumpable() && record.Dumpable()
      ensures Valid() && !connected
      ensures this.ensemble == ensemble && this.backup == backup && this.record == record
      ensures this.codec == codec && this.disableRecordKeeping == disableRecordKeeping
    {
      this.ensemble := ensemble;
      this.backup := backup;
      this.record := record;
      this.codec := codec;
      this.disableRecordKeeping := disableRecordKeeping;
      connected := false;
    }

    /** `__enter__`: start() returning gives the server; start() raising on
        a client that is not connected gives the backup; raising on a
        connected client reaches the bare `raise` of line 221, which runs
        outside the except clause and so raises RuntimeError. */
    method Enter(start: StartOutcome) returns (r: Result<Handle>)
      modifies this`connected
      ensures start == Started ==> connected && r == Ok(Remote(this))
      ensures start == StartRaised(false) ==> !connected && r == Ok(Local(backup))
      ensures start == StartRaised(true) ==> connected && r == Err(StartFailed)
    {
      match start
      case Started =>
        connected := true;
        r := Ok(Remote(this));
      case StartRaised(c) =>
        connected := c;
        if !c {
          r := Ok(Local(backup));
        } else {
          r := Err(StartFailed);
        }
    }

    /** `__exit__`: stop(). */
    method Exit()
      modifies this`connected
      ensures !connected
    {
      connected := false;
    }

    /** `update_session_record` (lines 187-189): the record gets `key` only
        when record keeping is enabled, and the ValueError of a record file
        `dump_file` refuses escapes. */
    method UpdateSessionRecord(key: string, value: Value) returns (err: Option<Error>)
      modifies record
      ensures record.data == if disableRecordKeeping then old(record.data) else old(record.data)[key := value]
      ensures disableRecordKeeping ==> record.disk == old(record.disk) && err.None?
      ensures !disableRecordKeeping ==>
                (record.disk, err) == Persist(record.codec, record.file, record.writable, old(record.disk), record.data)
      ensures record.Dumpable() ==> err.None?
    {
      err := None;
      if !disableRecordKeeping {
        err := record.Set(key, value);
      }
    }

    /** `__getitem__` (lines 191-199): any failure of `get` (including a
        client that is not connected) is a KeyError and records nothing; a
        successful read is decoded and recorded, and the record's write error,
        if any, escapes instead of the value. */
    method Get(key: string) returns (r: Result<Value>)
      modifies record
      ensures var read := ReadNode(codec, ensemble.root, key);
              var logged := connected && read.Ok? && !disableRecordKeeping;
              var written := Persist(record.codec, record.file, record.writable, old(record.disk), record.data);
              && (!connected ==> r == Err(KeyNotFound(key, ZooKeeper)))
              && (connected ==> r == if logged && written.1.Some? then Err(written.1.value) else read)
              && record.data == (if logged then old(record.data)[key := read.value] else old(record.data))
              && record.disk == (if logged then written.0 else old(record.disk))
      ensures record.Dumpable() ==> r == if connected then ReadNode(codec, ensemble.root, key) else Err(KeyNotFound(key, ZooKeeper))
    {
      if !connected {
        r := Err(KeyNotFound(key, ZooKeeper));
        return;
      }
      r := ReadNode(codec, ensemble.root, key);
      if r.Ok? {
        var err := UpdateSessionRecord(key, r.value);
        if err.Some? {
          r := Err(err.value);
        }
      }
    }

    /** `__setitem__` (lines 201-204): ensure_path, then set `value or {}`
        encoded as YAML, then record `value` itself. Errors of the client,
        and the record's write error, propagate. */
    method Set(key: string, value: Value) returns (err: Option<Error>)
      modifies ensemble, record
      ensures !connected ==> err == Some(ConnectionLost)
      ensures connected && Components(key).None? ==> err == Some(BadZkPath(key))
      ensures !(connected && Components(key).Some?) ==>
                ensemble.root == old(ensemble.root) && record.data == old(record.data) && record.disk == old(record.disk)
      ensures connected && Components(key).Some? ==>
                && ensemble.root == SetAt(old(ensemble.root), Components(key).value, codec.dump(Yaml, OrEmpty(value)))
                && record.data == (if disableRecordKeeping then old(record.data) else old(record.data)[key := value])
                && (disableRecordKeeping ==> record.disk == old(record.disk) && err.None?)
                && (!disableRecordKeeping ==>
                      (record.disk, err) == Persist(record.codec, record.file, record.writable, old(record.disk), record.data))
      ensures record.Dumpable() ==> (err.None? <==> connected && Components(key).Some?)
    {
      if !connected {
        err := Some(ConnectionLost);
        return;
      }
      match Components(key)
      case None =>
        err := Some(BadZkPath(key));
      case Some(cs) =>
        ensemble.root := SetAt(ensemble.root, cs, codec.dump(Yaml, OrEmpty(value)));
        err := UpdateSessionRecord(key, value);
    }

    /** `__delitem__` (lines 206-210): any failure of `delete` is a KeyError;
        the session record is never touched. */
    method Delete(key: string) returns (err: Option<Error>)
      modifies ensemble
      ensures err.None? <==> connected && Deletable(old(ensemble.root), key)
      ensures err.None? ==> ensemble.root == RemoveAt(old(ensemble.root), Components(key).value)
      ensures err.Some? ==> err == Some(KeyNotFound(key, ZooKeeper)) && ensemble.root == old(ensemble.root)
    {
      if connected && Deletable(ensemble.root, key) {
        ensemble.root := RemoveAt(ensemble.root, Components(key).value);
        err := None;
      } else {
        err := Some(KeyNotFound(key, ZooKeeper));
      }
    }

    /** `get_children(path)`. */
    method GetChildren(path: string) returns (r: Result<seq<string>>)
      ensures !connected ==> r == Err(ConnectionLost)
      ensures connected && Components(path).None? ==> r == Err(BadZkPath(path))
      ensures connected && Components(path).Some? && Lookup(ensemble.root, Components(path).value).None? ==>
                r == Err(NoNode(path))
      ensures r.Ok? <==> connected && Components(path).Some? && Lookup(ensemble.root, Components(path).value).Some?
      ensures r.Ok? ==> r.value == Names(Lookup(ensemble.root, Components(path).value).value.children)
    {
      if !connected {
        r := Err(ConnectionLost);
        return;
      }
      match Components(path)
      case None =>
        r := Err(BadZkPath(path));
      case Some(cs) =>
        match Lookup(ensemble.root, cs)
        case None =>
          r := Err(NoNode(path));
        case Some(n) =>
          r := Ok(Names(n.children));
    }
  }

  /** `ConfigServer(...)`: `__new__` returns the shared backup when the ping
      probe fails, so `__init__` is not run; otherwise a new client. */
  method Construct(reachable: bool, ensemble: Ensemble, backup: ConfigFile, record: ConfigFile, codec: Libraries,
                   disableRecordKeeping: bool) returns (c: Created)
    requires backup != record && backup.Dumpable() && record.Dumpable()
    ensures !reachable ==> c == BackupInstead(backup)
    ensures reachable ==> c.Client? && fresh(c.server) && !c.server.connected
    ensures reachable ==> c.server.ensemble == ensemble && c.server.backup == backup && c.server.record == record
    ensures reachable ==> c.server.codec == codec && c.server.disableRecordKeeping == disableRecordKeeping
  {
    if !reachable {
      c := BackupInstead(backup);
    } else {
      var s := new ConfigServer(ensemble, backup, record, codec, disableRecordKeeping);
      c := Client(s);
    }
  }
}
