/**
 * The remote side that `GitHubService` drives: one GitHub repository seen
 * through the REST API. Git objects live in a content-addressed store (the
 * sha of an object is a fixed, foreign hash of it), branches are refs to
 * commits, trees are flat maps from file path to entry, and issues carry
 * their comments and state. Every request that changes the repository is
 * appended to `requests`, so callers can state the order of their effects.
 */
module Remote {
  import opened Wrappers

  type Sha = string

  /** One entry of a tree: file mode, object type and the object's sha. */
  datatype TreeEntry = TreeEntry(mode: string, kind: string, sha: Sha)

  /** `InputGitTreeElement(path, mode, type, sha)`. */
  datatype TreeElement = TreeElement(path: string, mode: string, kind: string, sha: Sha)

  datatype GitObject =
    | Blob(content: string)
    | Tree(entries: map<string, TreeEntry>)
    | Commit(tree: Sha, parents: seq<Sha>, message: string)

  /** The Git data of a repository: objects by sha, and branch name to commit sha. */
  datatype GitStore = GitStore(objects: map<Sha, GitObject>, refs: map<string, Sha>)

  datatype Issue = Issue(title: string, body: string, labels: seq<string>, comments: seq<string>, closed: bool)

  /** A file as the contents endpoint describes it. */
  datatype ContentFile = ContentFile(path: string, sha: Sha)

  /** What `update_file` and `create_file` return: the new commit and the written file. */
  datatype WriteResult = WriteResult(commit: Sha, content: ContentFile)

  /** The requests that change the repository. */
  datatype Request =
    | CreateIssue(title: string, body: string, labels: Option<seq<string>>)
    | CreateComment(number: nat, text: string)
    | EditIssueState(number: nat, state: string)
    | UpdateFile(path: string, message: string, content: string, sha: Sha, branch: string)
    | CreateFile(path: string, message: string, content: string, branch: string)
    | CreateBlob(content: string, encoding: string)
    | CreateTree(elements: seq<TreeElement>, baseTree: Sha)
    | CreateCommit(message: string, tree: Sha, parents: seq<Sha>)
    | EditRef(branch: string, sha: Sha)

  const RegularFileMode: string := "100644"
  const NotFound: string := "404 Not Found"
  const Conflict: string := "409 Conflict"
  const Unprocessable: string := "422 Unprocessable Entity"

  /** Distinct objects have distinct shas: `unhash` recovers an object from its sha. */
  ghost predicate Injective(hash: GitObject -> Sha, unhash: Sha -> GitObject) {
    forall o :: unhash(hash(o)) == o
  }

  /** Every object has a non-empty sha (GitHub's are 40 hexadecimal digits). */
  ghost predicate NonEmptyShas(hash: GitObject -> Sha) {
    forall o :: hash(o) != ""
  }

  /** Every stored object sits under its own sha. */
  ghost predicate ContentAddressed(objects: map<Sha, GitObject>, hash: GitObject -> Sha) {
    forall s :: s in objects ==> hash(objects[s]) == s
  }

  /** `s` names a stored commit whose tree is stored. */
  predicate IsCommit(objects: map<Sha, GitObject>, s: Sha) {
    s in objects && objects[s].Commit? && objects[s].tree in objects && objects[objects[s].tree].Tree?
  }

  predicate IsTree(objects: map<Sha, GitObject>, s: Sha) {
    s in objects && objects[s].Tree?
  }

  /** Every entry of a tree names a stored object. */
  predicate EntriesStored(objects: map<Sha, GitObject>, entries: map<string, TreeEntry>) {
    forall p :: p in entries ==> entries[p].sha in objects
  }

  ghost predicate StoreOk(store: GitStore, hash: GitObject -> Sha) {
    && ContentAddressed(store.objects, hash)
    && (forall t :: t in store.objects && store.objects[t].Tree? ==> EntriesStored(store.objects, store.objects[t].entries))
    && (forall b :: b in store.refs ==> IsCommit(store.objects, store.refs[b]))
  }

  /** The files on a branch: the entries of its head commit's tree. */
  function Files(store: GitStore, branch: string): map<string, TreeEntry>
    requires branch in store.refs && IsCommit(store.objects, store.refs[branch])
  {
    store.objects[store.objects[store.refs[branch]].tree].entries
  }

  /** A tree with `elements` laid over `base`, later elements winning. */
  function Overlay(base: map<string, TreeEntry>, elements: seq<TreeElement>): map<string, TreeEntry>
    decreases elements
  {
    if elements == [] then base
    else Overlay(base[elements[0].path := TreeEntry(elements[0].mode, elements[0].kind, elements[0].sha)], elements[1..])
  }

  lemma {:induction false} OverlayStored(objects: map<Sha, GitObject>, base: map<string, TreeEntry>, elements: seq<TreeElement>)
    requires EntriesStored(objects, base)
    requires forall e :: e in elements ==> e.sha in objects
    ensures EntriesStored(objects, Overlay(base, elements))
    decreases elements
  {
    if elements != [] {
      OverlayStored(objects, base[elements[0].path := TreeEntry(elements[0].mode, elements[0].kind, elements[0].sha)], elements[1..]);
    }
  }

  /** Adding an object under its hash. */
  function Put(objects: map<Sha, GitObject>, hash: GitObject -> Sha, o: GitObject): map<Sha, GitObject> {
    objects[hash(o) := o]
  }

  /**
   * The repository after one file is written on a branch: a blob of the
   * content, the head tree with that single entry replaced or added, a commit
   * of that tree whose only parent is the old head, and the branch moved to it.
   */
  function CommitFile(store: GitStore, hash: GitObject -> Sha, branch: string, path: string,
                      content: string, message: string): GitStore
    requires branch in store.refs && IsCommit(store.objects, store.refs[branch])
  {
    var blob := Blob(content);
    var tree := Tree(Files(store, branch)[path := TreeEntry(RegularFileMode, "blob", hash(blob))]);
    var commit := Commit(hash(tree), [store.refs[branch]], message);
    GitStore(Put(Put(Put(store.objects, hash, blob), hash, tree), hash, commit),
             store.refs[branch := hash(commit)])
  }

  /** Adding an object keeps every stored object and every ref valid. */
  lemma PutKeeps(store: GitStore, hash: GitObject -> Sha, unhash: Sha -> GitObject, o: GitObject)
    requires Injective(hash, unhash) && StoreOk(store, hash)
    requires o.Tree? ==> EntriesStored(store.objects, o.entries)
    ensures store.objects.Keys <= Put(store.objects, hash, o).Keys
    ensures forall s :: s in store.objects ==> Put(store.objects, hash, o)[s] == store.objects[s]
    ensures StoreOk(GitStore(Put(store.objects, hash, o), store.refs), hash)
  {
    var objs := Put(store.objects, hash, o);
    forall s | s in store.objects ensures objs[s] == store.objects[s] {
      if s == hash(o) {
        assert hash(store.objects[s]) == hash(o);
      }
    }
    forall b | b in store.refs ensures IsCommit(objs, store.refs[b]) {
      assert IsCommit(store.objects, store.refs[b]);
    }
    forall t | t in objs && objs[t].Tree? ensures EntriesStored(objs, objs[t].entries) {
      if t != hash(o) {
        assert EntriesStored(store.objects, store.objects[t].entries);
      }
    }
  }

  /**
   * Writing one file: the new head's tree differs from the old one only at
   * `path`, which names the blob of the content; the new head's only parent is
   * the old head; other branches and every stored object are untouched.
   */
  lemma CommitFileEffect(store: GitStore, hash: GitObject -> Sha, unhash: Sha -> GitObject, branch: string, path: string,
                         content: string, message: string)
    requires Injective(hash, unhash) && StoreOk(store, hash) && branch in store.refs
    ensures var s' := CommitFile(store, hash, branch, path, content, message);
      && StoreOk(s', hash)
      && s'.refs.Keys == store.refs.Keys
      && Files(s', branch) == Files(store, branch)[path := TreeEntry(RegularFileMode, "blob", hash(Blob(content)))]
      && s'.objects[hash(Blob(content))] == Blob(content)
      && s'.objects[s'.refs[branch]].parents == [store.refs[branch]]
      && s'.objects[s'.refs[branch]].message == message
      && (forall b :: b in store.refs && b != branch ==> s'.refs[b] == store.refs[b] && Files(s', b) == Files(store, b))
      && (forall s :: s in store.objects ==> s in s'.objects && s'.objects[s] == store.objects[s])
  {
    var blob := Blob(content);
    var tree := Tree(Files(store, branch)[path := TreeEntry(RegularFileMode, "blob", hash(blob))]);
    var commit := Commit(hash(tree), [store.refs[branch]], message);
    var s1 := GitStore(Put(store.objects, hash, blob), store.refs);
    PutKeeps(store, hash, unhash, blob);
    var s2 := GitStore(Put(s1.objects, hash, tree), store.refs);
    assert EntriesStored(store.objects, Files(store, branch));
    PutKeeps(s1, hash, unhash, tree);
    var s3 := GitStore(Put(s2.objects, hash, commit), store.refs);
    PutKeeps(s2, hash, unhash, commit);
    assert s3.objects[hash(tree)] == tree;
    assert s3.objects[hash(blob)] == blob;
    assert IsCommit(s3.objects, hash(commit));
  }

  class Repository {
    /** The sha GitHub assigns to an object (foreign; fixed for the repository). */
    const hash: GitObject -> Sha
    /** The inverse of `hash` that makes it collision-free. */
    ghost const unhash: Sha -> GitObject
    var store: GitStore
    var issues: map<nat, Issue>
    var nextIssue: nat
    /** Every request that changed the repository, oldest first. */
    var requests: seq<Request>

    ghost predicate Valid()
      reads this
    {
      && Injective(hash, unhash)
      && NonEmptyShas(hash)
      && StoreOk(store, hash)
      && 1 <= nextIssue
      && forall n :: n in issues ==> n < nextIssue
    }

    constructor (hash: GitObject -> Sha, ghost unhash: Sha -> GitObject, store: GitStore, issues: map<nat, Issue>, nextIssue: nat)
      requires Injective(hash, unhash) && NonEmptyShas(hash) && StoreOk(store, hash)
      requires 1 <= nextIssue && forall n :: n in issues ==> n < nextIssue
      ensures Valid()
      ensures this.hash == hash && this.store == store && this.issues == issues && this.nextIssue == nextIssue
      ensures requests == []
    {
      this.hash := hash;
      this.unhash := unhash;
      this.store := store;
      this.issues := issues;
      this.nextIssue := nextIssue;
      requests := [];
    }

    /** `repo.get_contents(path, ref=branch)`. */
    method GetContents(path: string, branch: string) returns (r: Result<ContentFile, string>)
      requires Valid()
      ensures r.Success? <==> branch in store.refs && path in Files(store, branch)
      ensures r.Success? ==> r.value == ContentFile(path, Files(store, branch)[path].sha)
      ensures r.Failure? ==> r.error == NotFound
    {
      if branch in store.refs && path in Files(store, branch) {
        return Success(ContentFile(path, Files(store, branch)[path].sha));
      }
      return Failure(NotFound);
    }

    /** `repo.update_file(...)`: the server refuses a missing file or a stale sha. */
    method UpdateFileRequest(path: string, message: string, content: string, sha: Sha, branch: string)
      returns (r: Result<WriteResult, string>)
      requires Valid()
      modifies this
      ensures Valid()
      ensures requests == old(requests) + [UpdateFile(path, message, content, sha, branch)]
      ensures issues == old(issues) && nextIssue == old(nextIssue)
      ensures r.Success? <==>
        branch in old(store).refs && path in Files(old(store), branch) && Files(old(store), branch)[path].sha == sha
      ensures r.Success? ==> store == CommitFile(old(store), hash, branch, path, content, message)
      ensures r.Success? ==> r.value == WriteResult(store.refs[branch], ContentFile(path, hash(Blob(content))))
      ensures r.Failure? ==> store == old(store)
      ensures r.Failure? ==> r.error == if branch in old(store).refs && path in Files(old(store), branch) then Conflict else NotFound
    {
      requests := requests + [UpdateFile(path, message, content, sha, branch)];
      if branch !in store.refs || path !in Files(store, branch) {
        return Failure(NotFound);
      }
      if Files(store, branch)[path].sha != sha {
        return Failure(Conflict);
      }
      var next := CommitFile(store, hash, branch, path, content, message);
      CommitFileEffect(store, hash, unhash, branch, path, content, message);
      store := next;
      return Success(WriteResult(next.refs[branch], ContentFile(path, hash(Blob(content)))));
    }

    /** `repo.create_file(...)`: the server refuses an existing file (no sha given). */
    method CreateFileRequest(path: string, message: string, content: string, branch: string)
      returns (r: Result<WriteResult, string>)
      requires Valid()
      modifies this
      ensures Valid()
      ensures requests == old(requests) + [CreateFile(path, message, content, branch)]
      ensures issues == old(issues) && nextIssue == old(nextIssue)
      ensures r.Success? <==> branch in old(store).refs && path !in Files(old(store), branch)
      ensures r.Success? ==> store == CommitFile(old(store), hash, branch, path, content, message)
      ensures r.Success? ==> r.value == WriteResult(store.refs[branch], ContentFile(path, hash(Blob(content))))
      ensures r.Failure? ==> store == old(store)
      ensures r.Failure? ==> r.error == if branch in old(store).refs then Unprocessable else NotFound
    {
      requests := requests + [CreateFile(path, message, content, branch)];
      if branch !in store.refs {
        return Failure(NotFound);
      }
      if path in Files(store, branch) {
        return Failure(Unprocessable);
      }
      var next := CommitFile(store, hash, branch, path, content, message);
      CommitFileEffect(store, hash, unhash, branch, path, content, message);
      store := next;
      return Success(WriteResult(next.refs[branch], ContentFile(path, hash(Blob(content)))));
    }

    /** `repo.get_git_ref("heads/" + branch)`: the commit the branch points at. */
    method GetGitRef(branch: string) returns (r: Result<Sha, string>)
      requires Valid()
      ensures r.Success? <==> branch in store.refs
      ensures r.Success? ==> r.value == store.refs[branch] && IsCommit(store.objects, r.value)
      ensures r.Failure? ==> r.error == NotFound
    {
      if branch !in store.refs {
        return Failure(NotFound);
      }
      return Success(store.refs[branch]);
    }

    /** `repo.get_git_commit(sha)`. */
    method GetGitCommit(sha: Sha) returns (r: Result<GitObject, string>)
      requires Valid()
      ensures r.Success? <==> sha in store.objects && store.objects[sha].Commit?
      ensures r.Success? ==> r.value == store.objects[sha]
      ensures r.Failure? ==> r.error == NotFound
    {
      if sha in store.objects && store.objects[sha].Commit? {
        return Success(store.objects[sha]);
      }
      return Failure(NotFound);
    }

    /** `repo.create_git_blob(content, encoding)`. */
    method CreateGitBlob(content: string, encoding: string) returns (sha: Sha)
      requires Valid()
      modifies this
      ensures Valid()
      ensures requests == old(requests) + [CreateBlob(content, encoding)]
      ensures issues == old(issues) && nextIssue == old(nextIssue)
      ensures sha == hash(Blob(content))
      ensures store == GitStore(Put(old(store).objects, hash, Blob(content)), old(store).refs)
    {
      requests := requests + [CreateBlob(content, encoding)];
      PutKeeps(store, hash, unhash, Blob(content));
      store := GitStore(Put(store.objects, hash, Blob(content)), store.refs);
      sha := hash(Blob(content));
    }

    /** `repo.create_git_tree(elements, base_tree)`: the base tree must exist. */
    method CreateGitTree(elements: seq<TreeElement>, baseTree: Sha) returns (r: Result<Sha, string>)
      requires Valid()
      modifies this
      ensures Valid()
      ensures requests == old(requests) + [CreateTree(elements, baseTree)]
      ensures issues == old(issues) && nextIssue == old(nextIssue)
      ensures r.Success? <==>
        IsTree(old(store).objects, baseTree) && forall e :: e in elements ==> e.sha in old(store).objects
      ensures r.Success? ==>
        var tree := Tree(Overlay(old(store).objects[baseTree].entries, elements));
        r.value == hash(tree) && store == GitStore(Put(old(store).objects, hash, tree), old(store).refs)
      ensures r.Failure? ==> store == old(store) && r.error == Unprocessable
    {
      requests := requests + [CreateTree(elements, baseTree)];
      if !IsTree(store.objects, baseTree) || exists e :: e in elements && e.sha !in store.objects {
        return Failure(Unprocessable);
      }
      var tree := Tree(Overlay(store.objects[baseTree].entries, elements));
      OverlayStored(store.objects, store.objects[baseTree].entries, elements);
      PutKeeps(store, hash, unhash, tree);
      store := GitStore(Put(store.objects, hash, tree), store.refs);
      return Success(hash(tree));
    }

    /** `repo.create_git_commit(message, tree, parents)`: tree and parents must exist. */
    method CreateGitCommit(message: string, tree: Sha, parents: seq<Sha>) returns (r: Result<Sha, string>)
      requires Valid()
      modifies this
      ensures Valid()
      ensures requests == old(requests) + [CreateCommit(message, tree, parents)]
      ensures issues == old(issues) && nextIssue == old(nextIssue)
      ensures r.Success? <==> IsTree(old(store).objects, tree) && forall p :: p in parents ==> IsCommit(old(store).objects, p)
      ensures r.Success? ==>
        r.value == hash(Commit(tree, parents, message))
        && store == GitStore(Put(old(store).objects, hash, Commit(tree, parents, message)), old(store).refs)
      ensures r.Failure? ==> store == old(store) && r.error == Unprocessable
    {
      requests := requests + [CreateCommit(message, tree, parents)];
      if !IsTree(store.objects, tree) || exists p :: p in parents && !IsCommit(store.objects, p) {
        return Failure(Unprocessable);
      }
      var commit := Commit(tree, parents, message);
      PutKeeps(store, hash, unhash, commit);
      store := GitStore(Put(store.objects, hash, commit), store.refs);
      return Success(hash(commit));
    }

    /** `ref.edit(sha=...)`: the branch must exist and the sha must name a commit. */
    method EditGitRef(branch: string, sha: Sha) returns (r: Result<(), string>)
      requires Valid()
      modifies this
      ensures Valid()
      ensures requests == old(requests) + [EditRef(branch, sha)]
      ensures issues == old(issues) && nextIssue == old(nextIssue)
      ensures r.Success? <==> branch in old(store).refs && IsCommit(old(store).objects, sha)
      ensures r.Success? ==> store == GitStore(old(store).objects, old(store).refs[branch := sha])
      ensures r.Failure? ==> store == old(store) && r.error == Unprocessable
    {
      requests := requests + [EditRef(branch, sha)];
      if branch !in store.refs || !IsCommit(store.objects, sha) {
        return Failure(Unprocessable);
      }
      store := GitStore(store.objects, store.refs[branch := sha]);
      return Success(());
    }

    /** `repo.create_issue(title=..., body=...[, labels=...])`: the new issue is open with no comments. */
    method CreateIssueRequest(title: string, body: string, labels: Option<seq<string>>) returns (number: nat)
      requires Valid()
      modifies this
      ensures Valid() && store == old(store)
      ensures requests == old(requests) + [CreateIssue(title, body, labels)]
      ensures number == old(nextIssue) && number !in old(issues) && nextIssue == old(nextIssue) + 1
      ensures issues == old(issues)[number := Issue(title, body, if labels.Some? then labels.value else [], [], false)]
    {
      requests := requests + [CreateIssue(title, body, labels)];
      number := nextIssue;
      issues := issues[number := Issue(title, body, if labels.Some? then labels.value else [], [], false)];
      nextIssue := nextIssue + 1;
    }

    /** `repo.get_issue(number)`. */
    method GetIssue(number: nat) returns (r: Result<Issue, string>)
      requires Valid()
      ensures r.Success? <==> number in issues
      ensures r.Success? ==> r.value == issues[number]
      ensures r.Failure? ==> r.error == NotFound
    {
      if number !in issues {
        return Failure(NotFound);
      }
      return Success(issues[number]);
    }

    /** `issue.create_comment(text)`: the comment is appended to the issue's comments. */
    method CreateCommentRequest(number: nat, text: string)
      requires Valid() && number in issues
      modifies this
      ensures Valid() && store == old(store) && nextIssue == old(nextIssue)
      ensures requests == old(requests) + [CreateComment(number, text)]
      ensures issues == old(issues)[number := old(issues)[number].(comments := old(issues)[number].comments + [text])]
    {
      requests := requests + [CreateComment(number, text)];
      issues := issues[number := issues[number].(comments := issues[number].comments + [text])];
    }

    /** `issue.edit(state='closed')`. */
    method CloseIssueRequest(number: nat)
      requires Valid() && number in issues
      modifies this
      ensures Valid() && store == old(store) && nextIssue == old(nextIssue)
      ensures requests == old(requests) + [EditIssueState(number, "closed")]
      ensures issues == old(issues)[number := old(issues)[number].(closed := true)]
    {
      requests := requests + [EditIssueState(number, "closed")];
      issues := issues[number := issues[number].(closed := true)];
    }
  }
}
