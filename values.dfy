/** Values shared by every part of the configuration accessor: configuration
    documents, the errors the accessor raises, and Option/Result wrappers. */
module Values {

  datatype Option<+T> = None | Some(value: T)

  /** Either a value or the exception the Python code would raise. */
  datatype Result<+T> = Ok(value: T) | Err(error: Error)

  newtype byte = x: int | 0 <= x < 256

  type Bytes = seq<byte>

  /** Where a missing key was looked for; the KeyError message names it. */
  datatype Store = LocalFile(path: string) | ZooKeeper

  /** The exceptions of the accessor, by cause. */
  datatype Error =
    | KeyNotFound(key: string, store: Store)  // KeyError
    | BadSuffix(path: string)                 // ValueError: not a .yaml/.json file
    | BadArgument                             // ValueError: fetch given an unsupported type
    | NotAMapping                             // TypeError: dict(**config) on a non-mapping
    | EmptyKey                                // IndexError: path_str[0] on ""
    | ConfigUnbound                           // UnboundLocalError: `config` never assigned
    | FileMissing(path: string)               // FileNotFoundError from open()
    | Malformed                               // the YAML/JSON parser rejected the bytes
    | BadZkPath(key: string)                  // ValueError from the client's path check
    | NoNode(path: string)                    // the client's NoNodeError
    | ConnectionLost                          // a client call on a client that is not connected
    | StartFailed                             // RuntimeError: the bare `raise` after start() failed on a connected client

  /** A decoded configuration document (YAML/JSON scalars, lists and
      string-keyed mappings). */
  datatype Value =
    | Null
    | Bool(b: bool)
    | Int(i: int)
    | Str(s: string)
    | List(items: seq<Value>)
    | Dict(entries: map<string, Value>)

  /** Python truthiness of a document. */
  predicate Truthy(v: Value)
  {
    match v
    case Null => false
    case Bool(b) => b
    case Int(i) => i != 0
    case Str(s) => s != ""
    case List(items) => items != []
    case Dict(entries) => entries != map[]
  }

  /** `v or dict()`: a falsy document becomes the empty mapping. */
  function OrEmpty(v: Value): (r: Value)
    ensures Truthy(v) ==> r == v
    ensures !Truthy(v) ==> r == Dict(map[])
    ensures r != Null
  {
    if Truthy(v) then v else Dict(map[])
  }

  /** A sequence of upserts applied in order, as repeated `d[k] = v`. */
  function ApplyAll(m: map<string, Value>, writes: seq<(string, Value)>): (r: map<string, Value>)
    ensures r.Keys == m.Keys + set i | 0 <= i < |writes| :: writes[i].0
    decreases |writes|
  {
    if writes == [] then m
    else ApplyAll(m[writes[0].0 := writes[0].1], writes[1..])
  }

  /** A single upsert. */
  lemma ApplyOne(m: map<string, Value>, k: string, v: Value)
    ensures ApplyAll(m, [(k, v)]) == m[k := v]
  {
    assert [(k, v)][1..] == [];
  }

  /** The last write to a key decides its value, and untouched keys keep theirs. */
  lemma {:induction false} ApplyAllLastWins(m: map<string, Value>, writes: seq<(string, Value)>, k: string)
    ensures (forall i :: 0 <= i < |writes| ==> writes[i].0 != k) ==>
              k in m ==> k in ApplyAll(m, writes) && ApplyAll(m, writes)[k] == m[k]
    ensures |writes| > 0 && writes[|writes| - 1].0 == k ==>
              ApplyAll(m, writes)[k] == writes[|writes| - 1].1
    decreases |writes|
  {
    if writes != [] {
      ApplyAllLastWins(m[writes[0].0 := writes[0].1], writes[1..], k);
      if |writes| == 1 {
        assert ApplyAll(m, writes) == m[writes[0].0 := writes[0].1];
      }
    }
  }

  lemma {:induction false} ApplyAllAppend(m: map<string, Value>, a: seq<(string, Value)>, b: seq<(string, Value)>)
    ensures ApplyAll(m, a + b) == ApplyAll(ApplyAll(m, a), b)
    decreases |a|
  {
    if a != [] {
      assert (a + b)[1..] == a[1..] + b;
      ApplyAllAppend(m[a[0].0 := a[0].1], a[1..], b);
    } else {
      assert a + b == b;
    }
  }
}
