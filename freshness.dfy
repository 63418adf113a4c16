/** The import-time freshness gate of the package (src/__init__.py:5-11):
    the full backup is refreshed when its file is missing or was last
    modified more than seven days ago. Times are integers on one clock in
    microseconds, the resolution of `datetime`; the file's modification time
    is known only when the file exists, which is how the short-circuiting `or`
    consults `stat()` only for an existing file. */
module Freshness {
  import opened Values
  import opened Codec
  import opened ZkTree
  import opened LocalStore
  import opened Server
  import opened Backup

  /** `timedelta(days=7)` in microseconds. */
  const Week: int := 7 * 24 * 60 * 60 * 1000000

  /** The condition of lines 5-10; `mtime` is None when the backup file does
      not exist. A modification time in the future gives a negative age. */
  function Stale(mtime: Option<int>, now: int): (r: bool)
    ensures mtime.None? ==> r
    ensures mtime.Some? && now - mtime.value > Week ==> r
    ensures mtime.Some? && now - mtime.value <= Week ==> !r
  {
    match mtime
    case None => true
    case Some(m) => now - m > Week
  }

  /** A backup stays fresh for exactly seven days: not stale from its
      modification time up to and including seven days later, stale from then
      on, and never stale while its modification time lies in the future. */
  lemma FreshForAWeek(m: int, now: int)
    ensures m <= now <= m + Week ==> !Stale(Some(m), now)
    ensures now > m + Week ==> Stale(Some(m), now)
    ensures now < m ==> !Stale(Some(m), now)
  {
  }

  /** Once stale, a backup that is not rewritten stays stale. */
  lemma StaleStaysStale(mtime: Option<int>, now: int, later: int)
    requires now <= later
    ensures Stale(mtime, now) ==> Stale(mtime, later)
  {
  }

  /** What importing the package does after `np_config` itself is loaded:
      at most one `backup_zk()` call, made exactly when the backup is stale,
      with no argument (so it makes its own client with record keeping off). */
  method OnImport(mtime: Option<int>, now: int, reachable: bool, start: StartOutcome,
                  ensemble: Ensemble, backup: ConfigFile, record: ConfigFile, codec: Libraries) returns (failure: Option<Error>)
    requires backup != record && backup.Dumpable() && record.Dumpable()
    requires WellFormed(ensemble.root)
    modifies backup, record
    ensures !Stale(mtime, now) ==> failure == None && unchanged(backup, record)
    ensures Stale(mtime, now) && !reachable ==> failure == None && unchanged(backup, record)
    ensures Stale(mtime, now) && reachable ==>
              var o := Run(codec, ensemble.root, start);
              && failure == o.failure
              && backup.data == ApplyAll(old(backup.data), o.writes)
              && backup.disk == AfterWrites(backup.codec, backup.file, backup.writable, old(backup.disk), o.writes != [], backup.data)
              && record.data == old(record.data) && record.disk == old(record.disk)
  {
    failure := None;
    if Stale(mtime, now) {
      failure := BackupZk(None, reachable, start, ensemble, backup, record, codec);
    }
  }
}
