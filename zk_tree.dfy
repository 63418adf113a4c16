/** The ZooKeeper hierarchy as a finite tree, and the slash-separated paths
    that address its nodes. The client library's calls (`get`, `set`,
    `ensure_path`, `delete`, `get_children`) are modelled as functions on this
    tree; there is no wire protocol. */
module ZkTree {
  import opened Values

  /** A node: its data, whether the server lets this client read it (a read
      that is refused raises in `get`), and its children in the order
      `get_children` lists them. */
  datatype Tree = Node(data: Bytes, readable: bool, children: seq<Child>)
  datatype Child = Child(name: string, node: Tree)

  /** What `ensure_path` creates: a readable node with no data. */
  const Fresh: Tree := Node([], true, [])

  /** A path component: non-empty and slash-free. */
  predicate ValidName(n: string)
  {
    n != "" && '/' !in n
  }

  /** Child names are valid and distinct, all the way down. */
  predicate WellFormed(t: Tree)
    decreases t
  {
    && (forall i :: 0 <= i < |t.children| ==> ValidName(t.children[i].name) && WellFormed(t.children[i].node))
    && (forall i, j :: 0 <= i < j < |t.children| ==> t.children[i].name != t.children[j].name)
  }

  /** The position of the first child with the given name. */
  function Find(kids: seq<Child>, name: string): (r: Option<nat>)
    ensures r.Some? ==> r.value < |kids| && kids[r.value].name == name
    ensures r.Some? ==> forall j :: 0 <= j < r.value ==> kids[j].name != name
    ensures r.None? ==> forall j :: 0 <= j < |kids| ==> kids[j].name != name
    decreases |kids|
  {
    if kids == [] then None
    else if kids[0].name == name then Some(0)
    else match Find(kids[1..], name)
      case None => None
      case Some(i) => Some(i + 1)
  }

  /** Find's result is determined by the names. */
  lemma FindAt(kids: seq<Child>, name: string, i: nat)
    requires i < |kids| && kids[i].name == name
    requires forall j :: 0 <= j < i ==> kids[j].name != name
    ensures Find(kids, name) == Some(i)
  {
    var r := Find(kids, name);
    assert r.Some? ==> r.value == i by {
      assert r.Some? ==> !(r.value < i) && !(i < r.value);
    }
  }

  lemma FindAfterUpdate(kids: seq<Child>, i: nat, c: Child, name: string)
    requires i < |kids| && c.name == kids[i].name
    ensures Find(kids[i := c], name) == Find(kids, name)
  {
    var k' := kids[i := c];
    assert forall j :: 0 <= j < |kids| ==> k'[j].name == kids[j].name;
    match Find(kids, name)
    case Some(r) => FindAt(k', name, r);
    case None =>
  }

  lemma FindAfterAppend(kids: seq<Child>, c: Child, name: string)
    ensures name != c.name ==> Find(kids + [c], name) == Find(kids, name)
    ensures name == c.name && Find(kids, name).None? ==> Find(kids + [c], name) == Some(|kids|)
  {
    var k' := kids + [c];
    assert forall j :: 0 <= j < |kids| ==> k'[j] == kids[j];
    match Find(kids, name)
    case Some(r) => FindAt(k', name, r);
    case None =>
      if name == c.name { FindAt(k', name, |kids|); }
  }

  /** The children left by removing position `i`, by position. */
  lemma RemovedChild(kids: seq<Child>, i: nat, j: nat)
    requires i < |kids| && j < |kids| - 1
    ensures |kids[..i] + kids[i + 1..]| == |kids| - 1
    ensures (kids[..i] + kids[i + 1..])[j] == if j < i then kids[j] else kids[j + 1]
  {
  }

  lemma FindAfterRemove(kids: seq<Child>, i: nat, name: string)
    requires i < |kids| && kids[i].name != name
    ensures Find(kids[..i] + kids[i + 1..], name) ==
              match Find(kids, name)
              case None => None
              case Some(r) => Some(if r < i then r else r - 1)
  {
    var k' := kids[..i] + kids[i + 1..];
    match Find(kids, name)
    case Some(r) =>
      var r' := if r < i then r else r - 1;
      RemovedChild(kids, i, r');
      forall j | 0 <= j < r'
        ensures k'[j].name != name
      {
        RemovedChild(kids, i, j);
      }
      FindAt(k', name, r');
    case None =>
      forall j | 0 <= j < |k'|
        ensures k'[j].name != name
      {
        RemovedChild(kids, i, j);
      }
  }

  // ---------------------------------------------------------------------
  // Paths

  /** The position of the first `/` in s, or |s|. */
  function IndexOfSlash(s: string): (i: nat)
    ensures i <= |s|
    ensures i < |s| ==> s[i] == '/'
    ensures forall j :: 0 <= j < i ==> s[j] != '/'
    decreases |s|
  {
    if s == "" then 0
    else if s[0] == '/' then 0
    else 1 + IndexOfSlash(s[1..])
  }

  lemma IndexOfSlashAt(s: string, i: nat)
    requires i <= |s| && (i < |s| ==> s[i] == '/')
    requires forall j :: 0 <= j < i ==> s[j] != '/'
    ensures IndexOfSlash(s) == i
  {
    var k := IndexOfSlash(s);
    assert !(k < i) && !(i < k);
  }

  /** Split the part of a path after its leading `/` into components; None
      when a component would be empty (a doubled or trailing slash). */
  function Segments(s: string): (r: Option<seq<string>>)
    ensures r.Some? ==> |r.value| > 0 && forall k :: 0 <= k < |r.value| ==> ValidName(r.value[k])
    decreases |s|
  {
    var i := IndexOfSlash(s);
    if i == 0 then None
    else if i == |s| then Some([s])
    else match Segments(s[i + 1..])
      case None => None
      case Some(rest) => Some([s[..i]] + rest)
  }

  /** The components of a ZooKeeper path: `/` is the root, every other path
      starts with `/` and has only non-empty components. */
  function Components(path: string): (r: Option<seq<string>>)
    ensures r.Some? ==> forall k :: 0 <= k < |r.value| ==> ValidName(r.value[k])
    ensures r == Some([]) <==> path == "/"
  {
    if path == "/" then Some([])
    else if path == "" || path[0] != '/' then None
    else Segments(path[1..])
  }

  /** The child path built by `backup_zk` (src/np_config.py:238). */
  function Join(parent: string, name: string): string
  {
    if parent == "/" then "/" + name else parent + "/" + name
  }

  /** The path the walk of `backup_zk` builds for the components `rs` below
      `parent`, one Join per level. */
  function JoinAll(parent: string, rs: seq<string>): string
    decreases |rs|
  {
    if rs == [] then parent else JoinAll(Join(parent, rs[0]), rs[1..])
  }

  predicate NoDoubleSlash(p: string)
  {
    forall k :: 0 <= k < |p| - 1 && p[k] == '/' ==> p[k + 1] != '/'
  }

  lemma SegmentsOfName(name: string)
    requires ValidName(name)
    ensures Segments(name) == Some([name])
  {
    assert forall j :: 0 <= j < |name| ==> name[j] in name;
    IndexOfSlashAt(name, |name|);
  }

  lemma {:induction false} SegmentsAppend(s: string, cs: seq<string>, name: string)
    requires Segments(s) == Some(cs)
    requires ValidName(name)
    ensures Segments(s + "/" + name) == Some(cs + [name])
    decreases |s|
  {
    var u := s + "/" + name;
    var i := IndexOfSlash(s);
    assert forall j :: 0 <= j < |s| ==> u[j] == s[j];
    assert u[|s|] == '/';
    IndexOfSlashAt(u, i);
    if i == |s| {
      assert u[..i] == s;
      assert u[i + 1..] == name;
      SegmentsOfName(name);
    } else {
      assert u[..i] == s[..i];
      assert u[i + 1..] == s[i + 1..] + "/" + name;
      var rest := Segments(s[i + 1..]).value;
      assert cs == [s[..i]] + rest;
      SegmentsAppend(s[i + 1..], rest, name);
      assert Segments(u[i + 1..]) == Some(rest + [name]);
      assert [s[..i]] + (rest + [name]) == cs + [name];
    }
  }

  /** Joining a valid name onto a valid path adds exactly that component. */
  lemma JoinComponents(parent: string, cs: seq<string>, name: string)
    requires Components(parent) == Some(cs)
    requires ValidName(name)
    ensures Components(Join(parent, name)) == Some(cs + [name])
  {
    var p := Join(parent, name);
    if parent == "/" {
      assert cs == [];
      assert |p| == |name| + 1 && p[0] == '/';
      assert p != "/";
      assert p[1..] == name;
      SegmentsOfName(name);
      assert Components(p) == Segments(name);
      assert Components(p) == Some([name]);
      assert cs + [name] == [name];
    } else {
      assert p[1..] == parent[1..] + "/" + name;
      SegmentsAppend(parent[1..], cs, name);
    }
  }

  /** The path built by JoinAll has exactly the components added. */
  lemma {:induction false} JoinAllComponents(parent: string, ps: seq<string>, rs: seq<string>)
    requires Components(parent) == Some(ps)
    requires forall k :: 0 <= k < |rs| ==> ValidName(rs[k])
    ensures Components(JoinAll(parent, rs)) == Some(ps + rs)
    decreases |rs|
  {
    if rs == [] {
      assert ps + rs == ps;
    } else {
      JoinComponents(parent, ps, rs[0]);
      forall k | 0 <= k < |rs| - 1 ensures ValidName(rs[1..][k]) {
        assert rs[1..][k] == rs[k + 1];
      }
      JoinAllComponents(Join(parent, rs[0]), ps + [rs[0]], rs[1..]);
      assert ps + [rs[0]] + rs[1..] == ps + rs;
    }
  }

  lemma {:induction false} SegmentsNoDoubleSlash(s: string)
    requires Segments(s).Some?
    ensures |s| > 0 && s[0] != '/' && s[|s| - 1] != '/'
    ensures NoDoubleSlash(s)
    decreases |s|
  {
    var i := IndexOfSlash(s);
    if i < |s| {
      var t := s[i + 1..];
      SegmentsNoDoubleSlash(t);
      assert s[|s| - 1] == t[|t| - 1];
      forall k | 0 <= k < |s| - 1 && s[k] == '/'
        ensures s[k + 1] != '/'
      {
        if k > i { assert s[k] == t[k - i - 1] && s[k + 1] == t[k - i]; }
        else { assert k == i; assert s[k + 1] == t[0]; }
      }
    }
  }

  /** A valid path never contains `//`. */
  lemma ComponentsNoDoubleSlash(path: string)
    requires Components(path).Some?
    ensures NoDoubleSlash(path)
  {
    if path != "/" {
      var t := path[1..];
      SegmentsNoDoubleSlash(t);
      forall k | 0 <= k < |path| - 1 && path[k] == '/'
        ensures path[k + 1] != '/'
      {
        if k == 0 { assert path[1] == t[0]; }
        else { assert path[k] == t[k - 1] && path[k + 1] == t[k]; }
      }
    }
  }

  /** The candidate child path of `backup_zk` is valid, has one more
      component than its parent and contains no `//`. */
  lemma ChildPathIsValid(parent: string, cs: seq<string>, name: string)
    requires Components(parent) == Some(cs)
    requires ValidName(name)
    ensures Components(Join(parent, name)) == Some(cs + [name])
    ensures NoDoubleSlash(Join(parent, name))
  {
    JoinComponents(parent, cs, name);
    ComponentsNoDoubleSlash(Join(parent, name));
  }

  // ---------------------------------------------------------------------
  // The client calls as tree operations

  /** The node at the given components, if it exists. */
  function Lookup(t: Tree, cs: seq<string>): Option<Tree>
    decreases |cs|
  {
    if cs == [] then Some(t)
    else match Find(t.children, cs[0])
      case None => None
      case Some(i) => Lookup(t.children[i].node, cs[1..])
  }

  /** `ensure_path(key)` followed by `set(key, d)`: the missing nodes on the
      way are created empty, then the target's data is replaced. */
  function SetAt(t: Tree, cs: seq<string>, d: Bytes): Tree
    decreases |cs|
  {
    if cs == [] then t.(data := d)
    else match Find(t.children, cs[0])
      case Some(i) => t.(children := t.children[i := Child(cs[0], SetAt(t.children[i].node, cs[1..], d))])
      case None => t.(children := t.children + [Child(cs[0], SetAt(Fresh, cs[1..], d))])
  }

  /** `delete(key)` of an existing childless node other than the root. */
  function RemoveAt(t: Tree, cs: seq<string>): Tree
    requires cs != []
    decreases |cs|
  {
    match Find(t.children, cs[0])
    case None => t
    case Some(i) =>
      if |cs| == 1 then t.(children := t.children[..i] + t.children[i + 1..])
      else t.(children := t.children[i := Child(cs[0], RemoveAt(t.children[i].node, cs[1..]))])
  }

  /** The names `get_children` lists. */
  function Names(kids: seq<Child>): (r: seq<string>)
    ensures |r| == |kids| && forall i :: 0 <= i < |kids| ==> r[i] == kids[i].name
  {
    seq(|kids|, i requires 0 <= i < |kids| => kids[i].name)
  }

  /** After a set, the target holds the new data. */
  lemma {:induction false} LookupSetSame(t: Tree, cs: seq<string>, d: Bytes)
    ensures Lookup(SetAt(t, cs, d), cs).Some?
    ensures Lookup(SetAt(t, cs, d), cs).value.data == d
    decreases |cs|
  {
    if cs != [] {
      var t' := SetAt(t, cs, d);
      match Find(t.children, cs[0])
      case Some(i) =>
        FindAfterUpdate(t.children, i, Child(cs[0], SetAt(t.children[i].node, cs[1..], d)), cs[0]);
        LookupSetSame(t.children[i].node, cs[1..], d);
      case None =>
        FindAfterAppend(t.children, Child(cs[0], SetAt(Fresh, cs[1..], d)), cs[0]);
        LookupSetSame(Fresh, cs[1..], d);
    }
  }

  /** A set changes no path other than the target and its ancestors. */
  lemma {:induction false} LookupSetOther(t: Tree, cs: seq<string>, d: Bytes, qs: seq<string>)
    requires !(qs <= cs)
    ensures Lookup(SetAt(t, cs, d), qs) == Lookup(t, qs)
    decreases |cs|
  {
    var t' := SetAt(t, cs, d);
    if cs == [] {
      assert t'.children == t.children;
    } else {
      match Find(t.children, cs[0])
      case Some(i) =>
        FindAfterUpdate(t.children, i, t'.children[i], qs[0]);
        if qs[0] == cs[0] {
          assert !(qs[1..] <= cs[1..]);
          LookupSetOther(t.children[i].node, cs[1..], d, qs[1..]);
        } else {
          var r := Find(t.children, qs[0]);
          assert r.Some? ==> r.value != i && t'.children[r.value] == t.children[r.value];
        }
      case None =>
        FindAfterAppend(t.children, t'.children[|t.children|], qs[0]);
        if qs[0] == cs[0] {
          assert qs[1..] != [];
          assert Lookup(t, qs) == None;
          assert Lookup(SetAt(Fresh, cs[1..], d), qs[1..]) == Lookup(Fresh, qs[1..]) by {
            LookupSetOther(Fresh, cs[1..], d, qs[1..]);
          }
        } else {
          var r := Find(t.children, qs[0]);
          assert r.Some? ==> t'.children[r.value] == t.children[r.value];
        }
    }
  }

  lemma {:induction false} FreshWellFormed(cs: seq<string>, d: Bytes)
    requires forall k :: 0 <= k < |cs| ==> ValidName(cs[k])
    ensures WellFormed(SetAt(Fresh, cs, d))
    decreases |cs|
  {
    if cs != [] {
      FreshWellFormed(cs[1..], d);
    }
  }

  /** A set keeps the child names valid and distinct. */
  lemma {:induction false} SetWellFormed(t: Tree, cs: seq<string>, d: Bytes)
    requires WellFormed(t)
    requires forall k :: 0 <= k < |cs| ==> ValidName(cs[k])
    ensures WellFormed(SetAt(t, cs, d))
    decreases |cs|
  {
    if cs != [] {
      match Find(t.children, cs[0])
      case Some(i) =>
        SetWellFormed(t.children[i].node, cs[1..], d);
      case None =>
        FreshWellFormed(cs[1..], d);
    }
  }

  /** A child reached through a well-formed tree is found by its name. */
  lemma {:induction false} LookupChild(t: Tree, cs: seq<string>, n: Tree, i: nat)
    requires WellFormed(t)
    requires Lookup(t, cs) == Some(n)
    requires i < |n.children|
    ensures WellFormed(n)
    ensures Lookup(t, cs + [n.children[i].name]) == Some(n.children[i].node)
    decreases |cs|
  {
    if cs == [] {
      assert Find(n.children, n.children[i].name) == Some(i);
    } else {
      var k := Find(t.children, cs[0]).value;
      assert (cs + [n.children[i].name])[1..] == cs[1..] + [n.children[i].name];
      LookupChild(t.children[k].node, cs[1..], n, i);
    }
  }

  /** After a delete of a node in a well-formed tree, it is gone. */
  lemma {:induction false} LookupRemoveSame(t: Tree, cs: seq<string>)
    requires WellFormed(t)
    requires cs != []
    ensures Lookup(RemoveAt(t, cs), cs).None?
    decreases |cs|
  {
    var t' := RemoveAt(t, cs);
    match Find(t.children, cs[0])
    case None =>
    case Some(i) =>
      if |cs| == 1 {
        assert Find(t'.children, cs[0]).None? by {
          forall j | 0 <= j < |t'.children|
            ensures t'.children[j].name != cs[0]
          {
            RemovedChild(t.children, i, j);
          }
        }
      } else {
        FindAfterUpdate(t.children, i, t'.children[i], cs[0]);
        LookupRemoveSame(t.children[i].node, cs[1..]);
      }
  }

  /** A delete changes no path that is neither an ancestor nor a descendant
      of the deleted node. */
  lemma {:induction false} LookupRemoveOther(t: Tree, cs: seq<string>, qs: seq<string>)
    requires cs != []
    requires !(qs <= cs) && !(cs <= qs)
    ensures Lookup(RemoveAt(t, cs), qs) == Lookup(t, qs)
    decreases |cs|
  {
    var t' := RemoveAt(t, cs);
    match Find(t.children, cs[0])
    case None =>
    case Some(i) =>
      if qs[0] != cs[0] {
        var r := Find(t.children, qs[0]);
        if |cs| == 1 {
          FindAfterRemove(t.children, i, qs[0]);
          if r.Some? {
            RemovedChild(t.children, i, if r.value < i then r.value else r.value - 1);
          }
        } else {
          FindAfterUpdate(t.children, i, t'.children[i], qs[0]);
          assert r.Some? ==> r.value != i && t'.children[r.value] == t.children[r.value];
        }
      } else {
        assert |cs| > 1 && |qs| > 1;
        assert !(qs[1..] <= cs[1..]) && !(cs[1..] <= qs[1..]);
        FindAfterUpdate(t.children, i, t'.children[i], qs[0]);
        LookupRemoveOther(t.children[i].node, cs[1..], qs[1..]);
      }
  }

  /** A delete keeps the child names valid and distinct. */
  lemma {:induction false} RemoveWellFormed(t: Tree, cs: seq<string>)
    requires WellFormed(t)
    requires cs != []
    ensures WellFormed(RemoveAt(t, cs))
    decreases |cs|
  {
    var t' := RemoveAt(t, cs);
    match Find(t.children, cs[0])
    case None =>
    case Some(i) =>
      if |cs| == 1 {
        forall j | 0 <= j < |t'.children|
          ensures t'.children[j] == if j < i then t.children[j] else t.children[j + 1]
        {
          RemovedChild(t.children, i, j);
        }
      } else {
        RemoveWellFormed(t.children[i].node, cs[1..]);
      }
  }
}
