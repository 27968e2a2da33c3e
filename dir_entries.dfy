/**
 * What both `list_files` tools see of the filesystem: the state of the
 * requested folder and, for a directory, the entries `iterdir` yields with
 * what `is_dir`, `is_file` and `stat` report for each. The records the tools
 * return for an entry are shared too.
 */
module DirEntries {
  import opened Wrappers
  import opened Text

  /**
   * One directory entry. `statError` is the message of the `OSError` that
   * `stat()` raises for an entry that cannot be accessed, `None` when it
   * succeeds. `silent` says, for such an entry, whether pathlib's `is_dir`,
   * `is_file` and `exists` swallow that error and answer False (as they do
   * for a dangling symbolic link) instead of raising it.
   *
   * The two listings query an entry differently: the file-listing server
   * asks `is_dir`, then `is_file` and `exists`, calling `stat` only behind
   * the last two; the containerised server calls `stat` first.
   */
  datatype DirEntry = DirEntry(name: string, path: string, isDir: bool, isFile: bool, size: nat,
                               statError: Option<string>, silent: bool)

  /**
   * The requested folder: missing, not a directory, failing while it is
   * listed (`permission` tells a `PermissionError` from any other error), or
   * a directory with its entries in `iterdir` order.
   */
  datatype Folder =
    | Missing
    | NotADirectory
    | Unreadable(permission: bool, message: string)
    | Directory(entries: seq<DirEntry>)

  /** A listed entry: "directory", "file" or "unknown", a size for files, an error for inaccessible entries. */
  datatype FileRecord = FileRecord(name: string, path: string, kind: string, size: Option<nat>, error: Option<string>)

  /** The result of a listing: the files, or an error naming the path. */
  datatype Listing =
    | Listed(path: string, totalItems: nat, files: seq<FileRecord>)
    | ListingError(error: string, path: string)

  /** The record of an entry whose `stat` succeeded. */
  function Accessible(e: DirEntry): (r: FileRecord)
    ensures r.name == e.name && r.path == e.path && r.error == None
    ensures r.kind == (if e.isDir then "directory" else "file")
    ensures r.size.Some? <==> e.isFile
    ensures e.isFile ==> r.size == Some(e.size)
  {
    FileRecord(e.name, e.path, if e.isDir then "directory" else "file", if e.isFile then Some(e.size) else None, None)
  }

  /** The sort key of both listings: `x["name"].lower()`. */
  function NameKey(f: FileRecord): string {
    Lower(f.name)
  }

  /**
   * Whether the file-listing server lists the entry: its `stat` succeeds, or
   * fails with an error the `is_*` checks swallow.
   */
  predicate Listable(e: DirEntry) {
    e.statError.None? || e.silent
  }

  /**
   * The record the file-listing server builds for a listable entry. When
   * `stat` fails silently every check answers False, so the entry is a
   * "file" without size or error.
   */
  function ServerRecord(e: DirEntry): (r: FileRecord)
    requires Listable(e)
    ensures r.name == e.name && r.path == e.path && r.error == None
    ensures e.statError.None? ==> r == Accessible(e)
    ensures e.statError.Some? ==> r.kind == "file" && r.size == None
  {
    if e.statError.None? then Accessible(e) else FileRecord(e.name, e.path, "file", None, None)
  }
}
