/**
 * `storage.NewStorage`: which backend the server runs on. A database DSN
 * comes first, then a snapshot file, then memory.
 */
module StorageFactory {
  import opened Wrappers
  import opened StoreSpec
  import opened OsFile
  import opened Persist
  import opened StorageMem
  import opened StorageFile

  datatype Backend = DBBackend | FileBackend | MemBackend

  /** The backend chosen, or a panic: `NewDBStorage` panics when the database cannot be reached or set up. */
  datatype Selection = Selected(backend: Backend) | Panicked

  /**
   * The decision itself. `fileOpens` says whether `NewFileStorage` would
   * succeed (it fails exactly when the file does not open); `dbReady`
   * whether the ping and the table creation of `NewDBStorage` succeed.
   */
  function Select(dsn: string, path: string, fileOpens: bool, dbReady: bool): (r: Selection)
    ensures dsn != "" ==> r == (if dbReady then Selected(DBBackend) else Panicked)
    ensures dsn == "" && path != "" ==> (r == Selected(FileBackend) <==> fileOpens)
    ensures dsn == "" && (path == "" || !fileOpens) ==> r == Selected(MemBackend)
  {
    if dsn != "" then
      if dbReady then Selected(DBBackend) else Panicked
    else if path != "" && fileOpens then Selected(FileBackend)
    else Selected(MemBackend)
  }

  /** A DSN never falls back to another backend, and only a DSN can panic. */
  lemma DsnNeverFallsBack(dsn: string, path: string, fileOpens: bool, dbReady: bool)
    ensures Select(dsn, path, fileOpens, dbReady) == Panicked <==> dsn != "" && !dbReady
    ensures dsn != "" ==> Select(dsn, path, fileOpens, dbReady) != Selected(FileBackend)
    ensures dsn != "" ==> Select(dsn, path, fileOpens, dbReady) != Selected(MemBackend)
  {
  }

  /** The store `NewStorage` returns; the database store itself is not modelled. */
  datatype Store = DBStore | FileStore(fs: FileStorage) | MemStore(ms: MemStorage)

  function BackendOf(s: Store): Backend {
    match s
    case DBStore => DBBackend
    case FileStore(_) => FileBackend
    case MemStore(_) => MemBackend
  }

  /**
   * The factory over the real constructors: `file` is what opening the
   * snapshot path yields (null when the open fails); it is only opened
   * when there is no DSN and the path is not empty. None is a panic.
   */
  method NewStorage(dsn: string, path: string, restore: bool, file: File?, seekFails: bool, codec: Codec, dbReady: bool)
    returns (r: Option<Store>)
    modifies file
    ensures r.None? <==> Select(dsn, path, file != null, dbReady) == Panicked
    ensures r.Some? ==> Select(dsn, path, file != null, dbReady) == Selected(BackendOf(r.value))
    ensures r.Some? && r.value.MemStore? ==> fresh(r.value.ms) && r.value.ms.metrics == map[]
    ensures r.Some? && r.value.FileStore? ==> fresh(r.value.fs) && file != null
    ensures r.Some? && r.value.FileStore? && file != null ==>
      r.value.fs.metrics == (if restore && !seekFails then Loaded(map[], codec.decode(file.data)) else map[])
  {
    if dsn != "" {
      if dbReady {
        return Some(DBStore);
      }
      return None;
    } else if path != "" {
      var fs, err := NewFileStorage(restore, file, seekFails, codec);
      if err.None? {
        return Some(FileStore(fs));
      }
    }
    var ms := new MemStorage();
    r := Some(MemStore(ms));
  }
}
