/** `ConfigFile`: an in-memory mapping over a backing file, rewritten on
    every update (src/np_config.py:101-162). */
module LocalStore {
  import opened Values
  import opened Codec

  /** The backing file as the operating system holds it. */
  datatype Disk = Missing | Present(bytes: Bytes)

  /** One `write()` (src/np_config.py:117-131) from disk state `disk`: the
      disk afterwards and the exception that escapes, if any. An OSError is
      swallowed and leaves the file as it was; an unsupported suffix leaves
      the file emptied and raises ValueError, which `write()` does not catch. */
  function Persist(c: Libraries, file: string, writable: bool, disk: Disk, data: map<string, Value>): (Disk, Option<Error>)
  {
    match DumpFile(c, Dict(data), file, writable)
    case Wrote(b) => (Present(b), None)
    case Truncated => (Present([]), Some(BadSuffix(file)))
    case OpenFailed => (disk, None)
  }

  /** The three outcomes of a write. */
  lemma PersistOutcomes(c: Libraries, file: string, writable: bool, disk: Disk, data: map<string, Value>)
    ensures !writable ==> Persist(c, file, writable, disk, data) == (disk, None)
    ensures writable && DumpFormat(Suffix(file)).Some? ==>
              Persist(c, file, writable, disk, data) == (Present(c.dump(DumpFormat(Suffix(file)).value, Dict(data))), None)
    ensures writable && DumpFormat(Suffix(file)).None? ==>
              Persist(c, file, writable, disk, data) == (Present([]), Some(BadSuffix(file)))
    ensures DumpFormat(Suffix(file)).Some? ==> Persist(c, file, writable, disk, data).1.None?
  {
  }

  /** Only the last of several writes matters for the disk. */
  lemma PersistLastWins(c: Libraries, file: string, writable: bool, disk: Disk, x: map<string, Value>, y: map<string, Value>)
    ensures Persist(c, file, writable, Persist(c, file, writable, disk, x).0, y) == Persist(c, file, writable, disk, y)
  {
  }

  /** What `__init__` loads (src/np_config.py:111-115): nothing when the file
      is missing, else the decoded file, which must be a mapping. */
  function LoadData(c: Libraries, file: string, disk: Disk): (r: Result<map<string, Value>>)
    ensures disk.Missing? ==> r == Ok(map[])
    ensures disk.Present? ==>
              (r.Ok? <==> FromFile(c, file, Some(disk.bytes)).Ok? && FromFile(c, file, Some(disk.bytes)).value.Dict?)
    ensures disk.Present? && r.Ok? ==> Dict(r.value) == FromFile(c, file, Some(disk.bytes)).value
  {
    match disk
    case Missing => Ok(map[])
    case Present(b) =>
      match FromFile(c, file, Some(b))
      case Err(e) => Err(e)
      case Ok(v) => if v.Dict? then Ok(v.entries) else Err(NotAMapping)
  }

  /** Durability: a mapping that `write()` persisted is what a new
      `ConfigFile` on the same file loads. */
  lemma ReloadAfterPersist(c: Libraries, file: string, disk: Disk, data: map<string, Value>)
    requires RoundTrips(c)
    requires DumpFormat(Suffix(file)).Some?
    ensures LoadData(c, file, Persist(c, file, true, disk, data).0) == Ok(data)
  {
    DumpThenRead(c, data, file);
  }

  /** The disk of a file that held `d0` and was then written with the
      mappings of zero (`wrote` false) or more writes, the last of them `data`:
      by PersistLastWins only the last write matters. */
  function AfterWrites(c: Libraries, file: string, writable: bool, d0: Disk, wrote: bool, data: map<string, Value>): Disk
  {
    if wrote then Persist(c, file, writable, d0, data).0 else d0
  }

  /** Two rounds of writes are one round ending with the later mapping. */
  lemma AfterWritesTwice(c: Libraries, file: string, writable: bool, d0: Disk, w1: bool, x: map<string, Value>,
                         w2: bool, y: map<string, Value>)
    ensures AfterWrites(c, file, writable, AfterWrites(c, file, writable, d0, w1, x), w2, y)
            == AfterWrites(c, file, writable, d0, w1 || w2, if w2 then y else x)
  {
    if w1 && w2 {
      PersistLastWins(c, file, writable, d0, x, y);
    }
  }

  class ConfigFile {
    const file: string
    const codec: Libraries
    /** Whether the operating system accepts writes of the backing file. */
    const writable: bool
    var data: map<string, Value>
    var disk: Disk

    /** The suffix of the backing file is one `dump_file` accepts, so `write()`
        never raises. */
    predicate Dumpable()
    {
      DumpFormat(Suffix(file)).Some?
    }

    constructor (file: string, codec: Libraries, writable: bool, disk: Disk)
      requires LoadData(codec, file, disk).Ok?
      ensures this.file == file && this.codec == codec && this.writable == writable
      ensures this.disk == disk && data == LoadData(codec, file, disk).value
    {
      this.file := file;
      this.codec := codec;
      this.writable := writable;
      this.disk := disk;
      data := LoadData(codec, file, disk).value;
    }

    /** `write()`: rewrite the backing file with the whole mapping. */
    method Write() returns (err: Option<Error>)
      modifies this`disk
      ensures (disk, err) == Persist(codec, file, writable, old(disk), data)
      ensures Dumpable() ==> err.None?
    {
      var r := Persist(codec, file, writable, disk, data);
      disk, err := r.0, r.1;
    }

    /** `__getitem__` as written: line 136 discards the value, so a present
        key yields None; a missing key raises KeyError naming the file. */
    method Get(key: string) returns (r: Result<Value>)
      ensures r.Ok? <==> key in data
      ensures r.Ok? ==> r.value == Null
      ensures r.Err? ==> r.error == KeyNotFound(key, LocalFile(file))
    {
      if key in data {
        r := Ok(Null);
      } else {
        r := Err(KeyNotFound(key, LocalFile(file)));
      }
    }

    /** `__setitem__`: upsert, then write. */
    method Set(key: string, value: Value) returns (err: Option<Error>)
      modifies this
      ensures data == old(data)[key := value]
      ensures (disk, err) == Persist(codec, file, writable, old(disk), data)
      ensures Dumpable() ==> err.None?
    {
      data := data[key := value];
      err := Write();
    }

    /** `__delitem__`: a missing key raises KeyError naming the file and
        leaves everything as it was; otherwise remove the key, then write. */
    method Delete(key: string) returns (err: Option<Error>)
      modifies this
      ensures old(key in data) ==> data == old(data) - {key}
                                   && (disk, err) == Persist(codec, file, writable, old(disk), data)
      ensures old(key !in data) ==> data == old(data) && disk == old(disk)
                                    && err == Some(KeyNotFound(key, LocalFile(file)))
    {
      if key !in data {
        err := Some(KeyNotFound(key, LocalFile(file)));
        return;
      }
      data := data - {key};
      err := Write();
    }

    /** `__exit__`: leaving a `with` block on the file writes it. */
    method Exit() returns (err: Option<Error>)
      modifies this`disk
      ensures (disk, err) == Persist(codec, file, writable, old(disk), data)
    {
      err := Write();
    }
  }

  /** Constructing a `ConfigFile`, including the exceptions `from_file`
      raises for an existing file that cannot be loaded. */
  method Open(file: string, codec: Libraries, writable: bool, disk: Disk) returns (r: Result<ConfigFile>)
    ensures r.Ok? <==> LoadData(codec, file, disk).Ok?
    ensures r.Err? ==> r.error == LoadData(codec, file, disk).error
    ensures r.Ok? ==> fresh(r.value) && r.value.file == file && r.value.disk == disk
                      && r.value.data == LoadData(codec, file, disk).value
  {
    match LoadData(codec, file, disk)
    case Err(e) =>
      r := Err(e);
    case Ok(_) =>
      var f := new ConfigFile(file, codec, writable, disk);
      r := Ok(f);
  }
}
