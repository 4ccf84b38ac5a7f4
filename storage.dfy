/**
 * The cursor store: `FileStorage` keeps one file per key under a directory,
 * `NullStorage` remembers nothing. `StoreModel` is the state either one is
 * in; the command specifications thread it through their runs.
 */
module CursorStore {
  import opened Values

  /**
   * The files PHP's `file_get_contents` and `file_put_contents` see. A write
   * to a path in `unwritable` fails (missing directory, no permission).
   */
  class FileSystem {
    var files: map<string, string>
    const unwritable: set<string>

    constructor(files: map<string, string>, unwritable: set<string>)
      ensures this.files == files && this.unwritable == unwritable
    {
      this.files := files;
      this.unwritable := unwritable;
    }

    /** `@file_get_contents`: None stands for false, a missing file. */
    function Get(path: string): (content: Option<string>)
      reads this
      ensures content.Some? <==> path in files
      ensures content.Some? ==> content.value == files[path]
    {
      if path in files then Some(files[path]) else None
    }

    /** `file_put_contents`: the number of bytes written, None standing for false. */
    method Put(path: string, content: string) returns (written: Option<nat>)
      modifies this
      ensures files == Written(old(files), unwritable, path, content)
      ensures written == if path in unwritable then None else Some(|content|)
    {
      if path in unwritable {
        written := None;
      } else {
        files := files[path := content];
        written := Some(|content|);
      }
    }
  }

  /** The files after `file_put_contents(path, content)`. */
  function Written(files: map<string, string>, unwritable: set<string>, path: string, content: string): map<string, string> {
    if path in unwritable then files else files[path := content]
  }

  /** The state of a cursor store. */
  datatype StoreModel =
    | FileModel(directory: string, files: map<string, string>, unwritable: set<string>)
    | NullModel

  /** `getFilePath`. */
  function FilePath(directory: string, key: string): string {
    directory + "/" + key
  }

  /** Different keys live in different files. */
  lemma FilePathInjective(directory: string, k1: string, k2: string)
    ensures FilePath(directory, k1) == FilePath(directory, k2) ==> k1 == k2
  {
    if FilePath(directory, k1) == FilePath(directory, k2) {
      var n := |directory| + 1;
      assert k1 == FilePath(directory, k1)[n..];
      assert k2 == FilePath(directory, k2)[n..];
    }
  }

  /** `!$data ? null : $data`: a missing file, `""` and `"0"` all read as null. */
  function FromFile(data: Option<string>): Option<string> {
    if data.None? || FalsyString(data.value) then None else data
  }

  /** What `load(key)` returns in state m. */
  function LoadFrom(m: StoreModel, key: string): Option<string> {
    match m
    case NullModel => None
    case FileModel(directory, files, _) =>
      var path := FilePath(directory, key);
      FromFile(if path in files then Some(files[path]) else None)
  }

  /** The state after `store(key, value)`. */
  function StoredIn(m: StoreModel, key: string, value: string): StoreModel {
    match m
    case NullModel => NullModel
    case FileModel(directory, files, unwritable) =>
      FileModel(directory, Written(files, unwritable, FilePath(directory, key), value), unwritable)
  }

  /** What `store(key, value)` returns: FileStorage's `(bool)` of the byte count or false. */
  function StoreSucceeds(m: StoreModel, key: string, value: string): bool {
    match m
    case NullModel => true
    case FileModel(directory, _, unwritable) => FilePath(directory, key) !in unwritable && |value| > 0
  }

  /**
   * A loaded cursor as the commands use it: absent (the cursor is null, or
   * `""` / `"0"`), an integer, or any other text, which the model treats as
   * an error (PHP 8 throws for non-numeric text).
   */
  datatype Cursor = NoCursor | At(n: int) | Unreadable

  function ParseCursor(data: Option<string>): Cursor {
    match data
    case None => NoCursor
    case Some(s) => if IntCursor(s).Some? then At(IntCursor(s).value) else Unreadable
  }

  // ---------------------------------------------------------------------------
  // Properties of the store

  /**
   * A successful store of a value other than `""` or `"0"` reads back as
   * that value; a stored `""` or `"0"` reads back as absent; NullStorage
   * reads back nothing.
   */
  lemma LoadAfterStore(m: StoreModel, key: string, value: string)
    ensures m.FileModel? && FilePath(m.directory, key) !in m.unwritable ==>
      LoadFrom(StoredIn(m, key, value), key) == if FalsyString(value) then None else Some(value)
    ensures m.FileModel? && FilePath(m.directory, key) in m.unwritable ==>
      LoadFrom(StoredIn(m, key, value), key) == LoadFrom(m, key)
    ensures m.NullModel? ==> LoadFrom(StoredIn(m, key, value), key) == None
  {
  }

  /** A store leaves every other key as it was. */
  lemma StoreKeepsOtherKeys(m: StoreModel, key: string, value: string, other: string)
    requires other != key
    ensures LoadFrom(StoredIn(m, key, value), other) == LoadFrom(m, other)
  {
    if m.FileModel? {
      FilePathInjective(m.directory, key, other);
    }
  }

  /** A file store reports failure exactly when no byte was written: an empty value or a failed write. */
  lemma StoreResultIsBytesWritten(m: StoreModel, key: string, value: string)
    requires m.FileModel?
    ensures StoreSucceeds(m, key, value) <==> FilePath(m.directory, key) !in m.unwritable && value != ""
  {
  }

  /** Whatever NullStorage is told to store, every load gives null and every store succeeds. */
  lemma NullStorageForgets(key: string, value: string, other: string)
    ensures StoreSucceeds(NullModel, key, value)
    ensures LoadFrom(StoredIn(NullModel, key, value), other) == None
  {
  }

  /**
   * A cursor n stored as text by a command reads back as n, except that 0
   * is written as `"0"` and so reads back as absent.
   */
  lemma CursorRoundTrip(m: StoreModel, key: string, n: int)
    requires m.FileModel? && FilePath(m.directory, key) !in m.unwritable
    ensures ParseCursor(LoadFrom(StoredIn(m, key, IntToString(n)), key)) == if n == 0 then NoCursor else At(n)
  {
    LoadAfterStore(m, key, IntToString(n));
    IntToStringFalsy(n);
    IntCursorOfIntToString(n);
  }

  /** The state after storing the cursors `ns` under `key`, one after the other. */
  function StoreInts(m: StoreModel, key: string, ns: seq<int>): (m': StoreModel)
    ensures m'.FileModel? == m.FileModel?
    ensures m.FileModel? ==> m'.directory == m.directory && m'.unwritable == m.unwritable
  {
    if ns == [] then m else StoredIn(StoreInts(m, key, ns[..|ns| - 1]), key, IntToString(ns[|ns| - 1]))
  }

  /**
   * After a series of cursor stores the file holds the last one, which reads
   * back as that integer (as absent when it is 0); an unwritable path or
   * NullStorage keeps what was read before the series.
   */
  lemma {:induction false} LoadAfterStoreInts(m: StoreModel, key: string, ns: seq<int>)
    requires ns != []
    ensures var c := ns[|ns| - 1];
      m.FileModel? && FilePath(m.directory, key) !in m.unwritable ==>
        ParseCursor(LoadFrom(StoreInts(m, key, ns), key)) == if c == 0 then NoCursor else At(c)
    ensures !(m.FileModel? && FilePath(m.directory, key) !in m.unwritable) ==>
      LoadFrom(StoreInts(m, key, ns), key) == LoadFrom(m, key)
  {
    var init := StoreInts(m, key, ns[..|ns| - 1]);
    if m.FileModel? && FilePath(m.directory, key) !in m.unwritable {
      CursorRoundTrip(init, key, ns[|ns| - 1]);
    } else {
      LoadAfterStore(init, key, IntToString(ns[|ns| - 1]));
      if |ns| > 1 {
        LoadAfterStoreInts(m, key, ns[..|ns| - 1]);
      }
    }
  }

  /** Cursor stores under one key leave every other key as it was. */
  lemma {:induction false} StoreIntsKeepsOtherKeys(m: StoreModel, key: string, ns: seq<int>, other: string)
    requires other != key
    ensures LoadFrom(StoreInts(m, key, ns), other) == LoadFrom(m, other)
  {
    if ns != [] {
      StoreIntsKeepsOtherKeys(m, key, ns[..|ns| - 1], other);
      StoreKeepsOtherKeys(StoreInts(m, key, ns[..|ns| - 1]), key, IntToString(ns[|ns| - 1]), other);
    }
  }

  // ---------------------------------------------------------------------------
  // The two storage classes and the interface the commands hold

  class FileStorage {
    const directory: string
    const fs: FileSystem

    constructor(directory: string, fs: FileSystem)
      ensures this.directory == directory && this.fs == fs
    {
      this.directory := directory;
      this.fs := fs;
    }

    ghost function Model(): StoreModel
      reads fs
    {
      FileModel(directory, fs.files, fs.unwritable)
    }

    method Store(key: string, value: string) returns (ok: bool)
      modifies fs
      ensures Model() == StoredIn(old(Model()), key, value)
      ensures ok == StoreSucceeds(old(Model()), key, value)
    {
      var written := fs.Put(FilePath(directory, key), value);
      ok := written.Some? && written.value > 0;
    }

    function Load(key: string): (data: Option<string>)
      reads fs
      ensures data == LoadFrom(Model(), key)
    {
      FromFile(fs.Get(FilePath(directory, key)))
    }
  }

  class NullStorage {
    constructor()
    {
    }

    method Store(key: string, value: string) returns (ok: bool)
      ensures ok
    {
      ok := true;
    }

    function Load(key: string): (data: Option<string>)
      ensures data == LoadFrom(NullModel, key)
    {
      None
    }
  }

  /** A `Storage` as the commands receive it: one of the two implementations. */
  datatype Storage = FileBacked(file: FileStorage) | NullBacked(nul: NullStorage) {
    ghost function Repr(): set<object> {
      if FileBacked? then {file.fs} else {}
    }

    ghost function Model(): StoreModel
      reads Repr()
    {
      if FileBacked? then file.Model() else NullModel
    }

    function Load(key: string): (data: Option<string>)
      reads Repr()
      ensures data == LoadFrom(Model(), key)
    {
      if FileBacked? then file.Load(key) else nul.Load(key)
    }

    method Store(key: string, value: string) returns (ok: bool)
      modifies Repr()
      ensures Model() == StoredIn(old(Model()), key, value)
      ensures ok == StoreSucceeds(old(Model()), key, value)
    {
      if FileBacked? {
        ok := file.Store(key, value);
      } else {
        ok := nul.Store(key, value);
      }
    }
  }
}
