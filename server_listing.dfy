/**
 * `list_files` of the file-listing server: an entry whose checks raise is
 * skipped, the others are listed sorted by lower-cased name.
 */
module ServerListing {
  import opened Wrappers
  import opened DirEntries
  import opened NameOrder

  /** The records of the listable entries, in `iterdir` order. */
  function Kept(entries: seq<DirEntry>): (r: seq<FileRecord>)
    ensures |r| <= |entries|
  {
    if entries == [] then []
    else
      var init := Kept(entries[..|entries| - 1]);
      var e := entries[|entries| - 1];
      if Listable(e) then init + [ServerRecord(e)] else init
  }

  /** A record is listed exactly when it is the record of a listable entry. */
  lemma {:induction false} KeptMembers(entries: seq<DirEntry>, f: FileRecord)
    ensures f in Kept(entries) <==>
      exists i :: 0 <= i < |entries| && Listable(entries[i]) && ServerRecord(entries[i]) == f
  {
    if entries != [] {
      var init := entries[..|entries| - 1];
      KeptMembers(init, f);
      if f in Kept(init) {
        var i :| 0 <= i < |init| && Listable(init[i]) && ServerRecord(init[i]) == f;
        assert entries[i] == init[i];
      }
      if exists i :: 0 <= i < |entries| && Listable(entries[i]) && ServerRecord(entries[i]) == f {
        var i :| 0 <= i < |entries| && Listable(entries[i]) && ServerRecord(entries[i]) == f;
        if i < |entries| - 1 {
          assert init[i] == entries[i];
        }
      }
    }
  }

  /** When no entry's checks raise, every entry is listed. */
  lemma {:induction false} KeptAllAccessible(entries: seq<DirEntry>)
    requires forall i :: 0 <= i < |entries| ==> Listable(entries[i])
    ensures |Kept(entries)| == |entries|
  {
    if entries != [] {
      KeptAllAccessible(entries[..|entries| - 1]);
    }
  }

  /**
   * An entry whose `stat` fails is listed as a sizeless "file" when the
   * checks swallow the error (a dangling symbolic link), and skipped when
   * they raise it.
   */
  lemma FailedStatListing(e: DirEntry)
    requires e.statError.Some?
    ensures e.silent ==> Kept([e]) == [FileRecord(e.name, e.path, "file", None, None)]
    ensures !e.silent ==> Kept([e]) == []
  {
    assert [e][..0] == [];
  }

  /**
   * `list_files(folder_path)`. `resolved` is `str(Path(folder_path).resolve())`;
   * the error paths before listing report it, the exception handlers report
   * the argument as given.
   */
  method ListFiles(folderPath: string, resolved: string, folder: Folder) returns (r: Listing)
    ensures folder.Missing? ==> r == ListingError("Path does not exist: " + folderPath, resolved)
    ensures folder.NotADirectory? ==> r == ListingError("Path is not a directory: " + folderPath, resolved)
    ensures folder.Unreadable? && folder.permission ==>
      r == ListingError("Permission denied accessing: " + folderPath, folderPath)
    ensures folder.Unreadable? && !folder.permission ==>
      r == ListingError("Unexpected error: " + folder.message, folderPath)
    ensures folder.Directory? ==>
      && r.Listed?
      && r.path == resolved
      && r.totalItems == |r.files|
      && r.files == SortSpec(Kept(folder.entries), NameKey)
      && SortedBy(r.files, NameKey)
      && multiset(r.files) == multiset(Kept(folder.entries))
  {
    match folder
    case Missing =>
      return ListingError("Path does not exist: " + folderPath, resolved);
    case NotADirectory =>
      return ListingError("Path is not a directory: " + folderPath, resolved);
    case Unreadable(permission, message) =>
      if permission {
        return ListingError("Permission denied accessing: " + folderPath, folderPath);
      }
      return ListingError("Unexpected error: " + message, folderPath);
    case Directory(entries) =>
      var files: seq<FileRecord> := [];
      for i := 0 to |entries|
        invariant files == Kept(entries[..i])
      {
        var item := entries[i];
        assert entries[..i + 1][..i] == entries[..i];
        match item.statError
        case None =>
          files := files + [Accessible(item)];
        case Some(_) =>
          if item.silent {
            files := files + [FileRecord(item.name, item.path, "file", None, None)];
          }
      }
      assert entries[..|entries|] == entries;
      files := SortByKey(files, NameKey);
      return Listed(resolved, |files|, files);
  }
}
