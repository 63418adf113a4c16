/** `backup_zk` (src/np_config.py:227-248): a depth-first walk of the
    ZooKeeper hierarchy that copies every node holding a non-empty document
    into the shared backup file, treating nodes with an empty document as
    containers to descend into and skipping nodes whose read raises KeyError. */
module Backup {
  import opened Values
  import opened ZkTree
  import opened LocalStore
  import opened Server
  import opened Codec

  /** What a (partial) walk did: the writes to the backup in order, the
      successful reads in order (each of them is also a session-record write
      when record keeping is on), and the exception that ended it, if any. */
  datatype Outcome = Outcome(writes: seq<(string, Value)>, fetched: seq<(string, Value)>, failure: Option<Error>)

  const Nothing: Outcome := Outcome([], [], None)

  /** `a` followed by `b`; whatever ended `b` ends the whole. */
  function Then(a: Outcome, b: Outcome): Outcome
  {
    Outcome(a.writes + b.writes, a.fetched + b.fetched, b.failure)
  }

  /** The body of the loop (lines 238-246) for the child at `path`, whose
      node is `n`: read it through the server; a KeyError skips it, any other
      exception ends the walk; a truthy document is backed up at its own path;
      an empty one is a container whose children are walked. */
  function Visit(c: Libraries, root: Tree, path: string, n: Tree): Outcome
    decreases n, 1
  {
    match ReadNode(c, root, path)
    case Err(e) => if e.KeyNotFound? then Nothing else Outcome([], [], Some(e))
    case Ok(v) =>
      if Truthy(v) then Outcome([(path, v)], [(path, v)], None)
      else
        Then(Outcome([], [(path, v)], None), WalkKids(c, root, path, n.children))
  }

  /** The loop of `backup(zk, parent)` over the children `kids`, in order,
      stopping at the first exception. */
  function WalkKids(c: Libraries, root: Tree, parent: string, kids: seq<Child>): Outcome
    decreases kids, 0
  {
    if kids == [] then Nothing
    else
      var pre := WalkKids(c, root, parent, kids[..|kids| - 1]);
      if pre.failure.Some? then pre
      else
        Then(pre, Visit(c, root, Join(parent, kids[|kids| - 1].name), kids[|kids| - 1].node))
  }

  /** `with zk: backup(zk)` (lines 247-248): the walk from `/` when start()
      returns. When start() raises on a client that is not connected,
      `__enter__` hands out the backup, which the `with` statement discards,
      so the walk's first `get_children` fails on the unconnected client;
      when it raises on a connected client, `__enter__` raises (line 221). */
  function Run(c: Libraries, root: Tree, start: StartOutcome): Outcome
  {
    match start
    case Started => WalkKids(c, root, "/", root.children)
    case StartRaised(connected) => Outcome([], [], Some(if connected then StartFailed else ConnectionLost))
  }

  // ---------------------------------------------------------------------
  // What the walk promises

  /** Everything a walk fetched was read successfully at that path; and
      everything it backed up is a truthy document, was fetched, and so was read
      at its own path. */
  predicate Sound(c: Libraries, root: Tree, o: Outcome)
  {
    && (forall i :: 0 <= i < |o.fetched| ==> ReadNode(c, root, o.fetched[i].0) == Ok(o.fetched[i].1))
    && (forall i :: 0 <= i < |o.writes| ==> Truthy(o.writes[i].1) && o.writes[i] in o.fetched)
  }

  lemma SoundThen(c: Libraries, root: Tree, a: Outcome, b: Outcome)
    requires Sound(c, root, a) && Sound(c, root, b)
    ensures Sound(c, root, Then(a, b))
  {
    var o := Then(a, b);
    forall i | 0 <= i < |o.fetched|
      ensures ReadNode(c, root, o.fetched[i].0) == Ok(o.fetched[i].1)
    {
      if i < |a.fetched| { assert o.fetched[i] == a.fetched[i]; } else { assert o.fetched[i] == b.fetched[i - |a.fetched|]; }
    }
    forall i | 0 <= i < |o.writes|
      ensures Truthy(o.writes[i].1) && o.writes[i] in o.fetched
    {
      if i < |a.writes| { assert o.writes[i] == a.writes[i]; } else { assert o.writes[i] == b.writes[i - |a.writes|]; }
    }
  }

  lemma {:induction false} VisitSound(c: Libraries, root: Tree, path: string, n: Tree)
    ensures Sound(c, root, Visit(c, root, path, n))
    decreases n, 1
  {
    match ReadNode(c, root, path)
    case Err(e) =>
    case Ok(v) =>
      if !Truthy(v) {
        WalkKidsSound(c, root, path, n.children);
        SoundThen(c, root, Outcome([], [(path, v)], None), WalkKids(c, root, path, n.children));
      }
  }

  lemma {:induction false} WalkKidsSound(c: Libraries, root: Tree, parent: string, kids: seq<Child>)
    ensures Sound(c, root, WalkKids(c, root, parent, kids))
    decreases kids, 0
  {
    if kids != [] {
      var pre := WalkKids(c, root, parent, kids[..|kids| - 1]);
      WalkKidsSound(c, root, parent, kids[..|kids| - 1]);
      if pre.failure.None? {
        var k := kids[|kids| - 1];
        VisitSound(c, root, Join(parent, k.name), k.node);
        SoundThen(c, root, pre, Visit(c, root, Join(parent, k.name), k.node));
      }
    }
  }

  /** What a run promises: everything it fetched was read at that path;
      everything it backs up is a truthy document read at its own path, a
      valid ZooKeeper path without `//`; and everything it backs up it has also
      fetched. */
  lemma RunSound(c: Libraries, root: Tree, start: StartOutcome)
    ensures Sound(c, root, Run(c, root, start))
    ensures forall i :: 0 <= i < |Run(c, root, start).writes| ==>
              && ReadNode(c, root, Run(c, root, start).writes[i].0) == Ok(Run(c, root, start).writes[i].1)
              && Components(Run(c, root, start).writes[i].0).Some? && NoDoubleSlash(Run(c, root, start).writes[i].0)
  {
    var o := Run(c, root, start);
    if start == Started {
      WalkKidsSound(c, root, "/", root.children);
    }
    forall i | 0 <= i < |o.writes|
      ensures && ReadNode(c, root, o.writes[i].0) == Ok(o.writes[i].1)
              && Components(o.writes[i].0).Some? && NoDoubleSlash(o.writes[i].0)
    {
      var j :| 0 <= j < |o.fetched| && o.fetched[j] == o.writes[i];
      ReadNodeOutcomes(c, root, o.writes[i].0);
      ComponentsNoDoubleSlash(o.writes[i].0);
    }
  }

  /** A walk without an exception contains the visit of each child, and that
      visit had no exception either. */
  lemma {:induction false} WalkKidsContains(c: Libraries, root: Tree, parent: string, kids: seq<Child>, j: nat)
    requires j < |kids| && WalkKids(c, root, parent, kids).failure.None?
    ensures Visit(c, root, Join(parent, kids[j].name), kids[j].node).failure.None?
    ensures forall w :: w in Visit(c, root, Join(parent, kids[j].name), kids[j].node).writes ==>
                          w in WalkKids(c, root, parent, kids).writes
    decreases |kids|
  {
    var init := kids[..|kids| - 1];
    var pre := WalkKids(c, root, parent, init);
    assert pre.failure.None?;
    if j < |kids| - 1 {
      assert init[j] == kids[j];
      WalkKidsContains(c, root, parent, init, j);
    }
  }

  /** Completeness of a visit: a node `rs` below the visited one whose
      document is truthy, reached through nodes that all read as `{}`, is
      backed up at the path the walk builds for it. */
  lemma {:induction false} VisitReaches(c: Libraries, root: Tree, path: string, n: Tree, rs: seq<string>, v: Value)
    requires Visit(c, root, path, n).failure.None?
    requires Lookup(n, rs).Some?
    requires ReadNode(c, root, JoinAll(path, rs)) == Ok(v) && Truthy(v)
    requires forall k :: 0 <= k < |rs| ==> ReadNode(c, root, JoinAll(path, rs[..k])) == Ok(Dict(map[]))
    ensures (JoinAll(path, rs), v) in Visit(c, root, path, n).writes
    decreases |rs|
  {
    if rs != [] {
      assert rs[..0] == [];
      var i := Find(n.children, rs[0]).value;
      var child := Join(path, rs[0]);
      WalkKidsContains(c, root, path, n.children, i);
      forall k | 0 <= k < |rs| - 1
        ensures ReadNode(c, root, JoinAll(child, rs[1..][..k])) == Ok(Dict(map[]))
      {
        assert rs[..k + 1][0] == rs[0] && rs[..k + 1][1..] == rs[1..][..k];
      }
      VisitReaches(c, root, child, n.children[i].node, rs[1..], v);
    }
  }

  /** Completeness of a run (line 228: every record is backed up): when the
      walk from `/` ends without an exception, every node whose document is
      truthy and whose proper ancestors below the root all read as `{}` is in
      the backup at its own path, with its document. */
  lemma RunComplete(c: Libraries, root: Tree, cs: seq<string>, v: Value)
    requires Run(c, root, Started).failure.None?
    requires cs != [] && Lookup(root, cs).Some?
    requires ReadNode(c, root, JoinAll("/", cs)) == Ok(v) && Truthy(v)
    requires forall k :: 0 < k < |cs| ==> ReadNode(c, root, JoinAll("/", cs[..k])) == Ok(Dict(map[]))
    ensures (JoinAll("/", cs), v) in Run(c, root, Started).writes
  {
    var i := Find(root.children, cs[0]).value;
    var top := Join("/", cs[0]);
    WalkKidsContains(c, root, "/", root.children, i);
    forall k | 0 <= k < |cs| - 1
      ensures ReadNode(c, root, JoinAll(top, cs[1..][..k])) == Ok(Dict(map[]))
    {
      assert cs[..k + 1][0] == cs[0] && cs[..k + 1][1..] == cs[1..][..k];
    }
    VisitReaches(c, root, top, root.children[i].node, cs[1..], v);
  }

  /** With record keeping on, every key a run adds to the backup is also in
      the session record afterwards (tests/test_main.py:16-24). */
  lemma BackedUpKeysRecorded(o: Outcome, b0: map<string, Value>, r0: map<string, Value>)
    requires forall i :: 0 <= i < |o.writes| ==> o.writes[i] in o.fetched
    ensures ApplyAll(b0, o.writes).Keys - b0.Keys <= ApplyAll(r0, o.fetched).Keys
  {
    forall k | k in ApplyAll(b0, o.writes).Keys - b0.Keys
      ensures k in ApplyAll(r0, o.fetched).Keys
    {
      var i :| 0 <= i < |o.writes| && o.writes[i].0 == k;
      var j :| 0 <= j < |o.fetched| && o.fetched[j] == o.writes[i];
      assert o.fetched[j].0 == k;
    }
  }

  /** A walk that hits an exception does nothing further. */
  lemma {:induction false} FailureSticks(c: Libraries, root: Tree, parent: string, kids: seq<Child>, i: nat)
    requires i <= |kids|
    requires WalkKids(c, root, parent, kids[..i]).failure.Some?
    ensures WalkKids(c, root, parent, kids) == WalkKids(c, root, parent, kids[..i])
    decreases |kids| - i
  {
    if i < |kids| {
      assert kids[..i + 1][..i] == kids[..i];
      FailureSticks(c, root, parent, kids, i + 1);
    } else {
      assert kids[..i] == kids;
    }
  }

  /** A node whose read raises KeyError contributes nothing to the walk. */
  lemma UnreadableSkipped(c: Libraries, root: Tree, path: string, n: Tree)
    requires ReadNode(c, root, path).Err? && ReadNode(c, root, path).error.KeyNotFound?
    ensures Visit(c, root, path, n) == Nothing
  {
  }

  /** A node with a truthy document is backed up and not descended into,
      and an empty one is descended into and not backed up. */
  lemma VisitDispatch(c: Libraries, root: Tree, path: string, n: Tree)
    requires ReadNode(c, root, path).Ok?
    ensures Truthy(ReadNode(c, root, path).value) ==>
              Visit(c, root, path, n).writes == [(path, ReadNode(c, root, path).value)]
    ensures !Truthy(ReadNode(c, root, path).value) ==>
              Visit(c, root, path, n).writes == WalkKids(c, root, path, n.children).writes
              && ReadNode(c, root, path).value == Dict(map[])
  {
    ReadNodeOutcomes(c, root, path);
  }

  // ---------------------------------------------------------------------
  // The walk as the source runs it

  /** The contents and the disks of the backup and the session record. */
  datatype Files = Files(backup: map<string, Value>, backupDisk: Disk, record: map<string, Value>, recordDisk: Disk)

  function Current(zk: ConfigServer): Files
    reads zk.backup, zk.record
  {
    Files(zk.backup.data, zk.backup.disk, zk.record.data, zk.record.disk)
  }

  /** The files after a walk that did `o` from `s`: the backed-up documents
      are upserted into the backup and, with record keeping on, the fetched
      ones into the record; each file that got a write holds its last
      mapping (or is unchanged when it cannot be opened). */
  function After(zk: ConfigServer, s: Files, o: Outcome): Files
  {
    var b := ApplyAll(s.backup, o.writes);
    var keep := zk.disableRecordKeeping;
    var r := if keep then s.record else ApplyAll(s.record, o.fetched);
    Files(b, AfterWrites(zk.backup.codec, zk.backup.file, zk.backup.writable, s.backupDisk, o.writes != [], b),
          r, AfterWrites(zk.record.codec, zk.record.file, zk.record.writable, s.recordDisk, !keep && o.fetched != [], r))
  }

  /** Two walks in a row change the files as the one walk that does both. */
  lemma AfterThen(zk: ConfigServer, s: Files, a: Outcome, b: Outcome)
    ensures After(zk, After(zk, s, a), b) == After(zk, s, Then(a, b))
  {
    ApplyAllAppend(s.backup, a.writes, b.writes);
    ApplyAllAppend(s.record, a.fetched, b.fetched);
    var s1 := After(zk, s, a);
    var t := After(zk, s, Then(a, b));
    AfterWritesTwice(zk.backup.codec, zk.backup.file, zk.backup.writable, s.backupDisk, a.writes != [], s1.backup,
                     b.writes != [], t.backup);
    AfterWritesTwice(zk.record.codec, zk.record.file, zk.record.writable, s.recordDisk,
                     !zk.disableRecordKeeping && a.fetched != [], s1.record,
                     !zk.disableRecordKeeping && b.fetched != [], t.record);
  }

  /** For a client with record keeping on, every key the walk of `backup_zk`
      adds to the backup is in the session record once the walk is over, and
      when the backup started out empty all of its keys are (the claim of
      tests/test_main.py:16-24). `BackupZk` leaves the files as `After` says. */
  lemma RunKeysRecorded(zk: ConfigServer, s: Files, start: StartOutcome)
    requires !zk.disableRecordKeeping
    ensures var t := After(zk, s, Run(zk.codec, zk.ensemble.root, start));
            && t.backup.Keys - s.backup.Keys <= t.record.Keys
            && (s.backup == map[] ==> t.backup.Keys <= t.record.Keys)
  {
    var o := Run(zk.codec, zk.ensemble.root, start);
    RunSound(zk.codec, zk.ensemble.root, start);
    BackedUpKeysRecorded(o, s.backup, s.record);
  }

  /** `backup(zk, parent)` (lines 236-246), for the node `node` at `parent`:
      the files change as the walk of the children goes. */
  method Walk(zk: ConfigServer, parent: string, ghost cs: seq<string>, ghost node: Tree) returns (failure: Option<Error>)
    requires zk.Valid() && zk.connected
    requires WellFormed(zk.ensemble.root)
    requires Components(parent) == Some(cs) && Lookup(zk.ensemble.root, cs) == Some(node)
    modifies zk.backup, zk.record
    decreases node, 0
    ensures failure == WalkKids(zk.codec, zk.ensemble.root, parent, node.children).failure
    ensures Current(zk) == After(zk, old(Current(zk)), WalkKids(zk.codec, zk.ensemble.root, parent, node.children))
  {
    var children := zk.GetChildren(parent);
    var names := children.value;
    ghost var kids := node.children;
    ghost var c := zk.codec;
    ghost var root := zk.ensemble.root;
    ghost var s0 := Current(zk);
    var i := 0;
    while i < |names|
      invariant 0 <= i <= |names| && names == Names(kids)
      invariant WalkKids(c, root, parent, kids[..i]).failure.None?
      invariant Current(zk) == After(zk, s0, WalkKids(c, root, parent, kids[..i]))
    {
      var path := Join(parent, names[i]);
      ChildStep(root, parent, cs, node, i);
      failure := VisitChild(zk, path, cs + [names[i]], kids[i].node);
      WalkAdvance(zk, s0, c, root, parent, kids, i);
      if failure.Some? {
        return;
      }
      i := i + 1;
    }
    failure := None;
    assert kids[..i] == kids;
  }

  /** The child at position `i` of the node at `parent` is reached by its path. */
  lemma ChildStep(root: Tree, parent: string, cs: seq<string>, node: Tree, i: nat)
    requires WellFormed(root)
    requires Components(parent) == Some(cs) && Lookup(root, cs) == Some(node)
    requires i < |node.children|
    ensures Components(Join(parent, node.children[i].name)) == Some(cs + [node.children[i].name])
    ensures Lookup(root, cs + [node.children[i].name]) == Some(node.children[i].node)
  {
    LookupChild(root, cs, node, i);
    ChildPathIsValid(parent, cs, node.children[i].name);
  }

  /** One turn of the loop in Walk: the files after the walk so far and then
      the child are the files after the walk of one more child, and a failure
      of that child ends the whole walk. */
  lemma WalkAdvance(zk: ConfigServer, s0: Files, c: Libraries, root: Tree, parent: string, kids: seq<Child>, i: nat)
    requires i < |kids|
    requires WalkKids(c, root, parent, kids[..i]).failure.None?
    ensures var step := Visit(c, root, Join(parent, kids[i].name), kids[i].node);
            && After(zk, After(zk, s0, WalkKids(c, root, parent, kids[..i])), step)
               == After(zk, s0, WalkKids(c, root, parent, kids[..i + 1]))
            && WalkKids(c, root, parent, kids[..i + 1]).failure == step.failure
            && (step.failure.Some? ==> WalkKids(c, root, parent, kids) == WalkKids(c, root, parent, kids[..i + 1]))
  {
    var step := Visit(c, root, Join(parent, kids[i].name), kids[i].node);
    WalkKidsStep(c, root, parent, kids, i);
    AfterThen(zk, s0, WalkKids(c, root, parent, kids[..i]), step);
    if step.failure.Some? {
      FailureSticks(c, root, parent, kids, i + 1);
    }
  }

  /** The loop's progress: one more child is the walk so far then that child. */
  lemma WalkKidsStep(c: Libraries, root: Tree, parent: string, kids: seq<Child>, i: nat)
    requires i < |kids|
    requires WalkKids(c, root, parent, kids[..i]).failure.None?
    ensures WalkKids(c, root, parent, kids[..i + 1])
            == Then(WalkKids(c, root, parent, kids[..i]), Visit(c, root, Join(parent, kids[i].name), kids[i].node))
  {
    assert kids[..i + 1][..i] == kids[..i] && kids[..i + 1][i] == kids[i];
  }

  /** One pass of the loop body (lines 238-246) for the child at `path`. */
  method VisitChild(zk: ConfigServer, path: string, ghost cs: seq<string>, ghost n: Tree) returns (failure: Option<Error>)
    requires zk.Valid() && zk.connected
    requires WellFormed(zk.ensemble.root)
    requires Components(path) == Some(cs) && Lookup(zk.ensemble.root, cs) == Some(n)
    modifies zk.backup, zk.record
    decreases n, 1
    ensures failure == Visit(zk.codec, zk.ensemble.root, path, n).failure
    ensures Current(zk) == After(zk, old(Current(zk)), Visit(zk.codec, zk.ensemble.root, path, n))
  {
    var value := zk.Get(path);
    if value.Err? {
      failure := if value.error.KeyNotFound? then None else Some(value.error);
      return;
    }
    var v := value.value;
    ghost var got := Outcome([], [(path, v)], None);
    ApplyOne(old(zk.record.data), path, v);
    assert Current(zk) == After(zk, old(Current(zk)), got);
    if Truthy(v) {
      failure := zk.backup.Set(path, v);
      ApplyOne(old(zk.backup.data), path, v);
      AfterThen(zk, old(Current(zk)), got, Outcome([(path, v)], [], None));
    } else {
      failure := Walk(zk, path, cs, n);
      AfterThen(zk, old(Current(zk)), got, WalkKids(zk.codec, zk.ensemble.root, path, n.children));
    }
  }

  /** `with zk: backup(zk)` (lines 247-248) on a client. When `__enter__`
      hands out the backup instead, the `with` statement drops it and the first
      `get_children("/")` runs on the unconnected client and raises; `__exit__`
      stops the client either way, unless `__enter__` itself raised. */
  method BackupWith(zk: ConfigServer, start: StartOutcome) returns (failure: Option<Error>)
    requires zk.Valid() && WellFormed(zk.ensemble.root)
    modifies zk, zk.backup, zk.record
    ensures failure == Run(zk.codec, zk.ensemble.root, start).failure
    ensures Current(zk) == After(zk, old(Current(zk)), Run(zk.codec, zk.ensemble.root, start))
    ensures zk.connected <==> start == StartRaised(true)
  {
    var h := zk.Enter(start);
    if h.Err? {
      failure := Some(h.error);
      return;
    }
    match h.value {
      case Local(_) =>
        var children := zk.GetChildren("/");
        failure := Some(children.error);
      case Remote(_) =>
        failure := Walk(zk, "/", [], zk.ensemble.root);
    }
    zk.Exit();
  }

  /** `not zk` (line 229) for what the caller passed: nothing, or the backup
      file while it is empty (a `UserDict` is falsy when empty). A client is
      always truthy. */
  predicate Replaced(given: Option<Created>)
    reads if given.Some? && given.value.BackupInstead? then {given.value.file} else {}
  {
    given.None? || (given.value.BackupInstead? && given.value.file.data == map[])
  }

  /** `backup_zk(zk)` (lines 227-248). Without a usable argument it makes its
      own `ConfigServer(disable_record_keeping=True)`; when that (or the
      argument) is the backup file it returns at once (lines 232-234); on a
      client it runs the walk. */
  method BackupZk(given: Option<Created>, reachable: bool, start: StartOutcome,
                  ensemble: Ensemble, backup: ConfigFile, record: ConfigFile, codec: Libraries) returns (failure: Option<Error>)
    requires backup != record && backup.Dumpable() && record.Dumpable()
    requires WellFormed(ensemble.root)
    requires given.Some? && given.value.Client? ==> given.value.server.Valid() && WellFormed(given.value.server.ensemble.root)
    modifies backup, record
    modifies if given.Some? && given.value.Client? then {given.value.server, given.value.server.backup, given.value.server.record} else {}
    ensures given.Some? && given.value.BackupInstead? && old(given.value.file.data) != map[] ==>
              failure == None && unchanged(backup, record)
    ensures old(Replaced(given)) && !reachable ==> failure == None && unchanged(backup, record)
    ensures old(Replaced(given)) && reachable ==>
              var o := Run(codec, ensemble.root, start);
              && failure == o.failure
              && backup.data == ApplyAll(old(backup.data), o.writes)
              && backup.disk == AfterWrites(backup.codec, backup.file, backup.writable, old(backup.disk), o.writes != [], backup.data)
              && record.data == old(record.data) && record.disk == old(record.disk)
    ensures given.Some? && given.value.Client? ==>
              var zk := given.value.server;
              var o := Run(zk.codec, zk.ensemble.root, start);
              failure == o.failure && Current(zk) == After(zk, old(Current(zk)), o)
  {
    var target: Created;
    if Replaced(given) {
      target := Construct(reachable, ensemble, backup, record, codec, true);
    } else {
      target := given.value;
    }
    match target
    case BackupInstead(_) =>
      failure := None;
    case Client(zk) =>
      ghost var s0 := Current(zk);
      failure := BackupWith(zk, start);
      assert old(Replaced(given)) ==> zk.record == record && zk.disableRecordKeeping;
  }
}
