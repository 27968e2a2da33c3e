/**
 * `list_files` of the containerised file server: a Windows drive-C path is
 * first rewritten to the host mount under "/host/C", and an entry that cannot
 * be accessed is listed as "unknown" with its error instead of being skipped.
 */
module DockerListing {
  import opened Wrappers
  import opened Text
  import opened DirEntries
  import opened NameOrder

  predicate IsHostPath(p: string) {
    StartsWith(p, "/host/")
  }

  predicate IsDriveC(p: string) {
    StartsWith(p, "C:") || StartsWith(p, "c:")
  }

  /**
   * The path the server lists: a "/host/" path as given; a drive-C path with
   * backslashes turned into slashes and the drive replaced by "/host/C",
   * adding the separator when the path has none after the drive; any other
   * path as given.
   */
  function TranslatePath(p: string): (r: string)
    ensures IsHostPath(p) ==> r == p
    ensures !IsHostPath(p) && !IsDriveC(p) ==> r == p
    ensures !IsHostPath(p) && IsDriveC(p) ==> StartsWith(r, "/host/C/")
  {
    if IsHostPath(p) then p
    else if IsDriveC(p) then
      var q := ReplaceChar(p, '\\', '/');
      if StartsWith(q, "C:/") || StartsWith(q, "c:/") then "/host/C" + q[2..] else "/host/C/" + q[2..]
    else p
  }

  /** The branch `TranslatePath` takes for a drive-C path. */
  lemma DriveCBranch(p: string)
    requires IsDriveC(p)
    ensures var q := ReplaceChar(p, '\\', '/');
      TranslatePath(p) == if StartsWith(q, "C:/") || StartsWith(q, "c:/") then "/host/C" + q[2..] else "/host/C/" + q[2..]
  {
    assert !IsHostPath(p) by {
      assert p[0] == 'C' || p[0] == 'c';
    }
  }

  /** After the replacement, a drive-C path starts with a slashed drive exactly when a slash follows the drive. */
  lemma DriveCSlashed(p: string)
    requires IsDriveC(p)
    ensures var q := ReplaceChar(p, '\\', '/');
      StartsWith(q, "C:/") || StartsWith(q, "c:/") <==> |q| > 2 && q[2] == '/'
  {
    var q := ReplaceChar(p, '\\', '/');
    assert q[..2] == p[..2];
    if |q| > 2 {
      assert q[..3] == q[..2] + [q[2]];
    }
  }

  /** A drive-C path keeps everything after the drive and its separator, with slashes only. */
  lemma DriveCRest(p: string)
    requires IsDriveC(p)
    ensures var q := ReplaceChar(p, '\\', '/');
      && (|q| > 2 && q[2] == '/' ==> TranslatePath(p) == "/host/C/" + q[3..])
      && (|q| == 2 || q[2] != '/' ==> TranslatePath(p) == "/host/C/" + q[2..])
  {
    var q := ReplaceChar(p, '\\', '/');
    DriveCBranch(p);
    DriveCSlashed(p);
    if |q| > 2 && q[2] == '/' {
      SlashJoins(q);
    }
  }

  /** Joining "/host/C" to a rest that starts with a slash is joining "/host/C/" to what follows the slash. */
  lemma SlashJoins(q: string)
    requires |q| > 2 && q[2] == '/'
    ensures "/host/C" + q[2..] == "/host/C/" + q[3..]
  {
    assert q[2..] == "/" + q[3..];
  }

  /** A drive-C path never keeps a backslash. */
  lemma DriveCHasNoBackslash(p: string)
    requires IsDriveC(p)
    ensures forall i :: 0 <= i < |TranslatePath(p)| ==> TranslatePath(p)[i] != '\\'
  {
    assert !IsHostPath(p) by {
      assert p[0] == 'C' || p[0] == 'c';
    }
  }

  /** "C:\\rest", "c:/rest" and "C:rest" all name the host directory "/host/C/rest". */
  lemma SeparatorSpellingsAgree(rest: string)
    requires forall i :: 0 <= i < |rest| ==> rest[i] != '\\'
    ensures TranslatePath("C:\\" + rest) == "/host/C/" + rest
    ensures TranslatePath("c:/" + rest) == "/host/C/" + rest
    ensures rest == [] || rest[0] != '/' ==> TranslatePath("C:" + rest) == "/host/C/" + rest
  {
    var back := "C:\\" + rest;
    assert back[..2] == "C:";
    assert ReplaceChar(back, '\\', '/') == "C:/" + rest;
    DriveCRest(back);
    assert ("C:/" + rest)[3..] == rest;
    var fwd := "c:/" + rest;
    assert fwd[..2] == "c:";
    assert ReplaceChar(fwd, '\\', '/') == fwd;
    DriveCRest(fwd);
    assert fwd[3..] == rest;
    var bare := "C:" + rest;
    assert bare[..2] == "C:";
    assert ReplaceChar(bare, '\\', '/') == bare;
    DriveCRest(bare);
    assert bare[2..] == rest;
  }

  /** An entry's record: its details when `stat` succeeds, an "unknown" record with the error otherwise. */
  function Record(e: DirEntry): (r: FileRecord)
    ensures r.name == e.name && r.path == e.path && r.error == e.statError
    ensures r.kind == "unknown" <==> e.statError.Some?
    ensures r.size.Some? <==> e.statError.None? && e.isFile
    ensures e.statError.None? ==> r == Accessible(e)
  {
    if e.statError.None? then Accessible(e) else FileRecord(e.name, e.path, "unknown", None, e.statError)
  }

  /** The records of all entries, in `iterdir` order. */
  function Records(entries: seq<DirEntry>): (r: seq<FileRecord>)
    ensures |r| == |entries|
    ensures forall i :: 0 <= i < |entries| ==> r[i] == Record(entries[i])
  {
    if entries == [] then [] else Records(entries[..|entries| - 1]) + [Record(entries[|entries| - 1])]
  }

  /** `list_files(folder_path)`, with the path translated first. */
  method ListFiles(folderPath: string, folder: Folder) returns (r: Listing)
    ensures var p := TranslatePath(folderPath);
      && (folder.Missing? ==> r == ListingError("Path does not exist: " + p, p))
      && (folder.NotADirectory? ==> r == ListingError("Path is not a directory: " + p, p))
      && (folder.Unreadable? ==> r == ListingError("Failed to list files: " + folder.message, p))
      && (folder.Directory? ==>
           && r.Listed?
           && r.path == p
           && r.totalItems == |r.files| == |folder.entries|
           && r.files == SortSpec(Records(folder.entries), NameKey)
           && SortedBy(r.files, NameKey)
           && multiset(r.files) == multiset(Records(folder.entries)))
  {
    var path := TranslatePath(folderPath);
    match folder
    case Missing =>
      return ListingError("Path does not exist: " + path, path);
    case NotADirectory =>
      return ListingError("Path is not a directory: " + path, path);
    case Unreadable(_, message) =>
      return ListingError("Failed to list files: " + message, path);
    case Directory(entries) =>
      var files: seq<FileRecord> := [];
      for i := 0 to |entries|
        invariant files == Records(entries[..i])
      {
        var item := entries[i];
        assert entries[..i + 1][..i] == entries[..i];
        match item.statError
        case None =>
          files := files + [Accessible(item)];
        case Some(e) =>
          files := files + [FileRecord(item.name, item.path, "unknown", None, Some(e))];
      }
      assert entries[..|entries|] == entries;
      files := SortByKey(files, NameKey);
      return Listed(path, |files|, files);
  }
}
