/**
 * `GitHubService`: repository operations over a lazily created, cached
 * client. Each operation first obtains the client (raising if the App is not
 * installed on the organisation), then issues its requests to the remote
 * repository in a fixed order.
 */
module Service {
  import opened Wrappers
  import opened ClientFactory
  import opened Remote

  /**
   * `list(items[:max])` when `max` is truthy, `list(items)` otherwise:
   * the first `max` items of the full listing, or all of them for `None` or 0.
   */
  function Capped<T>(items: seq<T>, max: Option<nat>): (r: seq<T>)
    ensures r <= items
    ensures max.Some? && max.value != 0 ==> |r| == if max.value < |items| then max.value else |items|
    ensures max.None? || max.value == 0 ==> r == items
  {
    if max.Some? && max.value != 0 && max.value < |items| then items[..max.value] else items
  }

  /** A cap never drops an item it has room for, and a second cap of the same size changes nothing. */
  lemma CappedIdempotent<T>(items: seq<T>, max: Option<nat>)
    ensures Capped(Capped(items, max), max) == Capped(items, max)
    ensures max.Some? && max.value >= |items| ==> Capped(items, max) == items
  {
  }

  /** What `update_file_in_branch` returns. */
  datatype FileUpdate = FileUpdate(commitSha: Sha, commitMessage: string, fileSha: Sha, filePath: string, branch: string)

  /** What `create_or_update_file_in_branch` returns. */
  datatype FileWrite = FileWrite(operation: string, commitSha: Sha, commitMessage: string, fileSha: Sha,
                                 filePath: string, branch: string)

  /** What `update_file_using_git_api` returns. */
  datatype GitWrite = GitWrite(commitSha: Sha, commitMessage: string, treeSha: Sha, blobSha: Sha,
                               branch: string, filePath: string)

  const Utf8: string := "utf-8"

  function UpdateFailure(path: string, branch: string, cause: string): string {
    "Failed to update file '" + path + "' in branch '" + branch + "': " + cause
  }

  /** The repository requests `close_issue` sends: the comment, if any, strictly before the state change. */
  function CloseRequests(number: nat, comment: Option<string>): seq<Request> {
    (if comment.Some? && comment.value != "" then [CreateComment(number, comment.value)] else [])
    + [EditIssueState(number, "closed")]
  }

  /** The four Git-data requests of the plumbing path, in order. */
  function PlumbingRequests(store: GitStore, hash: GitObject -> Sha, branch: string, path: string,
                            content: string, message: string): seq<Request>
    requires branch in store.refs && IsCommit(store.objects, store.refs[branch])
  {
    var head := store.refs[branch];
    var blob := hash(Blob(content));
    var tree := hash(Tree(Files(store, branch)[path := TreeEntry(RegularFileMode, "blob", blob)]));
    [CreateBlob(content, Utf8),
     CreateTree([TreeElement(path, RegularFileMode, "blob", blob)], store.objects[head].tree),
     CreateCommit(message, tree, [head]),
     EditRef(branch, hash(Commit(tree, [head], message)))]
  }

  /**
   * The write half of `update_file_using_git_api`, from reading the head commit
   * to moving the branch: on a valid repository none of these calls can fail.
   */
  method CommitThroughPlumbing(repo: Repository, branch: string, head: Sha, path: string, content: string, message: string)
    returns (commitSha: Sha, treeSha: Sha, blob: Sha)
    requires repo.Valid() && branch in repo.store.refs && head == repo.store.refs[branch]
    modifies repo
    ensures repo.Valid() && repo.issues == old(repo.issues)
    ensures repo.requests == old(repo.requests) + PlumbingRequests(old(repo.store), repo.hash, branch, path, content, message)
    ensures repo.store == CommitFile(old(repo.store), repo.hash, branch, path, content, message)
    ensures blob == repo.hash(Blob(content))
    ensures treeSha == repo.hash(Tree(Files(old(repo.store), branch)[path := TreeEntry(RegularFileMode, "blob", blob)]))
    ensures commitSha == repo.hash(Commit(treeSha, [head], message)) && repo.store.refs[branch] == commitSha
  {
    ghost var store0 := repo.store;
    ghost var requests0 := repo.requests;
    ghost var files0 := Files(store0, branch);
    var baseCommit := repo.GetGitCommit(head);
    match baseCommit
    case Failure(_) =>
      assert false;
    case Success(base) =>
      assert base == store0.objects[head];
      blob := repo.CreateGitBlob(content, Utf8);
      ghost var store1 := repo.store;
      var element := TreeElement(path, RegularFileMode, "blob", blob);
      OverlayOne(files0, element);
      assert store1.objects[base.tree] == store0.objects[base.tree];
      assert IsTree(store1.objects, base.tree);
      assert forall e :: e in [element] ==> e.sha in store1.objects;
      var tree := repo.CreateGitTree([element], base.tree);
      match tree
      case Failure(_) =>
        assert false;
      case Success(t) =>
        treeSha := t;
        ghost var treeObj := Tree(files0[path := TreeEntry(RegularFileMode, "blob", blob)]);
        assert treeSha == repo.hash(treeObj);
        assert repo.store.objects == Put(Put(store0.objects, repo.hash, Blob(content)), repo.hash, treeObj);
        assert IsTree(repo.store.objects, treeSha);
        assert IsCommit(repo.store.objects, head);
        var commit := repo.CreateGitCommit(message, treeSha, [head]);
        match commit
        case Failure(_) =>
          assert false;
        case Success(cs) =>
          commitSha := cs;
          assert IsCommit(repo.store.objects, commitSha);
          var moved := repo.EditGitRef(branch, commitSha);
          match moved
          case Failure(_) =>
            assert false;
          case Success(_) =>
            assert repo.requests == requests0 + [CreateBlob(content, Utf8), CreateTree([element], base.tree),
                                                 CreateCommit(message, treeSha, [head]), EditRef(branch, commitSha)];
  }

  /** Laying one element over a tree replaces or adds exactly that path. */
  lemma OverlayOne(base: map<string, TreeEntry>, e: TreeElement)
    ensures Overlay(base, [e]) == base[e.path := TreeEntry(e.mode, e.kind, e.sha)]
  {
    assert [e][1..] == [];
  }

  class GitHubService {
    const factory: Factory
    var client: Option<Client>
    /** How many times the factory has been asked for a client. */
    var factoryCalls: nat

    /** The cache only ever holds the client the factory issues. */
    ghost predicate Valid()
      reads this
    {
      client.Some? ==> client == IssuedClient(factory)
    }

    /** A client is available: cached, or the factory can issue one. */
    ghost predicate Authenticates()
      reads this
    {
      client.Some? || IssuedClient(factory).Some?
    }

    /** The cache after `_get_client` ran once from a cache holding `before`. */
    ghost predicate ClientStep(before: Option<Client>, callsBefore: nat)
      reads this
    {
      && client == (if before.Some? then before else IssuedClient(factory))
      && factoryCalls == callsBefore + (if before.Some? then 0 else 1)
    }

    constructor (factory: Factory)
      ensures Valid()
      ensures this.factory == factory && client == None && factoryCalls == 0
    {
      this.factory := factory;
      client := None;
      factoryCalls := 0;
    }

    /**
     * `_get_client`: asks the factory only while nothing is cached; once a
     * client is cached every call returns it and the factory is not asked again.
     */
    method GetClient() returns (r: Result<Client, string>)
      requires Valid()
      modifies this
      ensures Valid() && ClientStep(old(client), old(factoryCalls))
      ensures old(client).Some? ==> r == Success(old(client).value)
      ensures r.Success? <==> old(Authenticates())
      ensures r.Success? ==> client == Some(r.value)
      ensures r.Failure? ==> r.error == NoInstallationMessage(factory.config.org)
    {
      if client.None? {
        var issued, _ := GetAppAuthenticatedClientSync(factory);
        factoryCalls := factoryCalls + 1;
        if issued.Failure? {
          return Failure(issued.error);
        }
        client := Some(issued.value);
      }
      return Success(client.value);
    }

    /** `list_organization_repos`: the organisation's repositories, capped. */
    method ListOrganizationRepos<T>(orgRepos: seq<T>, maxRepos: Option<nat>) returns (r: Result<seq<T>, string>)
      requires Valid()
      modifies this
      ensures Valid() && ClientStep(old(client), old(factoryCalls))
      ensures r.Success? <==> old(Authenticates())
      ensures r.Success? ==> r.value == Capped(orgRepos, maxRepos)
    {
      var c := GetClient();
      if c.Failure? {
        return Failure(c.error);
      }
      return Success(Capped(orgRepos, maxRepos));
    }

    /** `get_open_issues`: the repository's open issues, capped. */
    method GetOpenIssues<T>(openIssues: seq<T>, maxIssues: Option<nat>) returns (r: Result<seq<T>, string>)
      requires Valid()
      modifies this
      ensures Valid() && ClientStep(old(client), old(factoryCalls))
      ensures r.Success? <==> old(Authenticates())
      ensures r.Success? ==> r.value == Capped(openIssues, maxIssues)
    {
      var c := GetClient();
      if c.Failure? {
        return Failure(c.error);
      }
      return Success(Capped(openIssues, maxIssues));
    }

    /** `get_pull_requests`: the pull requests in the requested state, capped. */
    method GetPullRequests<T>(pulls: seq<T>, maxPrs: Option<nat>) returns (r: Result<seq<T>, string>)
      requires Valid()
      modifies this
      ensures Valid() && ClientStep(old(client), old(factoryCalls))
      ensures r.Success? <==> old(Authenticates())
      ensures r.Success? ==> r.value == Capped(pulls, maxPrs)
    {
      var c := GetClient();
      if c.Failure? {
        return Failure(c.error);
      }
      return Success(Capped(pulls, maxPrs));
    }

    /** `search_issues`: the search results, capped. */
    method SearchIssues<T>(found: seq<T>, maxResults: Option<nat>) returns (r: Result<seq<T>, string>)
      requires Valid()
      modifies this
      ensures Valid() && ClientStep(old(client), old(factoryCalls))
      ensures r.Success? <==> old(Authenticates())
      ensures r.Success? ==> r.value == Capped(found, maxResults)
    {
      var c := GetClient();
      if c.Failure? {
        return Failure(c.error);
      }
      return Success(Capped(found, maxResults));
    }

    /** `create_issue`: labels are sent only when the list is non-empty. */
    method CreateIssue(repo: Repository, title: string, body: string, labels: Option<seq<string>>)
      returns (r: Result<nat, string>)
      requires Valid() && repo.Valid()
      modifies this, repo
      ensures Valid() && ClientStep(old(client), old(factoryCalls)) && repo.Valid()
      ensures r.Success? <==> old(Authenticates())
      ensures r.Failure? ==> unchanged(repo)
      ensures r.Success? ==>
        var sent := if labels.Some? && labels.value != [] then labels else None;
        && repo.requests == old(repo.requests) + [Request.CreateIssue(title, body, sent)]
        && r.value !in old(repo.issues)
        && repo.issues == old(repo.issues)[r.value := Issue(title, body, if sent.Some? then sent.value else [], [], false)]
        && repo.store == old(repo.store)
    {
      var c := GetClient();
      if c.Failure? {
        return Failure(c.error);
      }
      var number;
      if labels.Some? && labels.value != [] {
        number := repo.CreateIssueRequest(title, body, labels);
      } else {
        number := repo.CreateIssueRequest(title, body, None);
      }
      return Success(number);
    }

    /** `add_issue_comment`. */
    method AddIssueComment(repo: Repository, number: nat, comment: string) returns (r: Result<(), string>)
      requires Valid() && repo.Valid()
      modifies this, repo
      ensures Valid() && ClientStep(old(client), old(factoryCalls)) && repo.Valid()
      ensures r.Success? <==> old(Authenticates()) && number in old(repo.issues)
      ensures r.Failure? ==> unchanged(repo)
      ensures r.Success? ==>
        && repo.requests == old(repo.requests) + [CreateComment(number, comment)]
        && repo.issues == old(repo.issues)[number := old(repo.issues)[number].(comments := old(repo.issues)[number].comments + [comment])]
        && repo.store == old(repo.store)
    {
      var c := GetClient();
      if c.Failure? {
        return Failure(c.error);
      }
      var issue := repo.GetIssue(number);
      if issue.Failure? {
        return Failure(issue.error);
      }
      repo.CreateCommentRequest(number, comment);
      return Success(());
    }

    /**
     * `close_issue`: a non-empty comment is posted before the state changes;
     * the issue always ends closed.
     */
    method CloseIssue(repo: Repository, number: nat, comment: Option<string>) returns (r: Result<(), string>)
      requires Valid() && repo.Valid()
      modifies this, repo
      ensures Valid() && ClientStep(old(client), old(factoryCalls)) && repo.Valid()
      ensures r.Success? <==> old(Authenticates()) && number in old(repo.issues)
      ensures r.Failure? ==> unchanged(repo)
      ensures r.Success? ==>
        var before := old(repo.issues)[number];
        var added := if comment.Some? && comment.value != "" then [comment.value] else [];
        && repo.requests == old(repo.requests) + CloseRequests(number, comment)
        && repo.issues == old(repo.issues)[number := before.(comments := before.comments + added, closed := true)]
        && repo.store == old(repo.store)
    {
      var c := GetClient();
      if c.Failure? {
        return Failure(c.error);
      }
      var issue := repo.GetIssue(number);
      if issue.Failure? {
        return Failure(issue.error);
      }
      ghost var before := repo.issues[number];
      if comment.Some? && comment.value != "" {
        repo.CreateCommentRequest(number, comment.value);
      }
      assert repo.issues[number] == before.(comments := before.comments + if comment.Some? && comment.value != "" then [comment.value] else []);
      repo.CloseIssueRequest(number);
      return Success(());
    }

    /**
     * `update_file_in_branch`: writes with the sha just read from that branch.
     * A failed read or write raises an error naming the path and the branch; a
     * failed read sends no write.
     */
    method UpdateFileInBranch(repo: Repository, branch: string, path: string, content: string, message: string)
      returns (r: Result<FileUpdate, string>)
      requires Valid() && repo.Valid()
      modifies this, repo
      ensures Valid() && ClientStep(old(client), old(factoryCalls)) && repo.Valid()
      ensures repo.issues == old(repo.issues)
      ensures !old(Authenticates()) ==> r == Failure(NoInstallationMessage(factory.config.org)) && unchanged(repo)
      ensures old(Authenticates()) && !(branch in old(repo.store).refs && path in Files(old(repo.store), branch)) ==>
        r == Failure(UpdateFailure(path, branch, NotFound)) && unchanged(repo)
      ensures old(Authenticates()) && branch in old(repo.store).refs && path in Files(old(repo.store), branch) ==>
        && repo.requests == old(repo.requests) + [UpdateFile(path, message, content, Files(old(repo.store), branch)[path].sha, branch)]
        && repo.store == CommitFile(old(repo.store), repo.hash, branch, path, content, message)
        && r == Success(FileUpdate(repo.store.refs[branch], message, repo.hash(Blob(content)), path, branch))
    {
      var c := GetClient();
      if c.Failure? {
        return Failure(c.error);
      }
      var existing := repo.GetContents(path, branch);
      match existing
      case Failure(e) =>
        return Failure(UpdateFailure(path, branch, e));
      case Success(file) =>
        var result := repo.UpdateFileRequest(path, message, content, file.sha, branch);
        match result
        case Failure(e) =>
          return Failure(UpdateFailure(path, branch, e));
        case Success(written) =>
          return Success(FileUpdate(written.commit, message, written.content.sha, written.content.path, branch));
    }

    /**
     * `create_or_update_file_in_branch`: a successful read routes to an update
     * with the read sha and reports "updated"; a failed read routes to a create
     * without a sha and reports "created".
     */
    method CreateOrUpdateFileInBranch(repo: Repository, branch: string, path: string, content: string, message: string)
      returns (r: Result<FileWrite, string>)
      requires Valid() && repo.Valid()
      modifies this, repo
      ensures Valid() && ClientStep(old(client), old(factoryCalls)) && repo.Valid()
      ensures repo.issues == old(repo.issues)
      ensures !old(Authenticates()) ==> r == Failure(NoInstallationMessage(factory.config.org)) && unchanged(repo)
      ensures old(Authenticates()) && branch !in old(repo.store).refs ==>
        && repo.requests == old(repo.requests) + [CreateFile(path, message, content, branch)]
        && r == Failure(NotFound) && repo.store == old(repo.store)
      ensures old(Authenticates()) && branch in old(repo.store).refs ==>
        var present := path in Files(old(repo.store), branch);
        && repo.requests == old(repo.requests) +
             [if present then UpdateFile(path, message, content, Files(old(repo.store), branch)[path].sha, branch)
              else CreateFile(path, message, content, branch)]
        && repo.store == CommitFile(old(repo.store), repo.hash, branch, path, content, message)
        && r == Success(FileWrite(if present then "updated" else "created", repo.store.refs[branch], message,
                                  repo.hash(Blob(content)), path, branch))
    {
      var c := GetClient();
      if c.Failure? {
        return Failure(c.error);
      }
      ghost var store0 := repo.store;
      var probe := repo.GetContents(path, branch);
      var fileSha: Option<Sha>;
      var operation: string;
      if probe.Success? {
        fileSha := Some(probe.value.sha);
        operation := "updated";
      } else {
        fileSha := None;
        operation := "created";
      }
      if probe.Success? {
        var sha := probe.value.sha;
        assert EntriesStored(store0.objects, Files(store0, branch));
        assert sha in store0.objects;
        assert repo.hash(store0.objects[sha]) == sha;
      }
      var result;
      if fileSha.Some? && fileSha.value != "" {
        result := repo.UpdateFileRequest(path, message, content, fileSha.value, branch);
      } else {
        result := repo.CreateFileRequest(path, message, content, branch);
      }
      match result
      case Failure(e) =>
        return Failure(e);
      case Success(written) =>
        return Success(FileWrite(operation, written.commit, message, written.content.sha, written.content.path, branch));
    }

    /**
     * `update_file_using_git_api`: a blob of the content, a tree that lays the
     * single entry (path, 100644, blob, blob sha) over the head commit's tree,
     * a commit of that tree whose only parent is the old head, then the branch
     * moved to it. The repository ends exactly as after a contents-API write.
     */
    method UpdateFileUsingGitApi(repo: Repository, branch: string, path: string, content: string, message: string)
      returns (r: Result<GitWrite, string>)
      requires Valid() && repo.Valid()
      modifies this, repo
      ensures Valid() && ClientStep(old(client), old(factoryCalls)) && repo.Valid()
      ensures repo.issues == old(repo.issues)
      ensures !old(Authenticates()) ==> r == Failure(NoInstallationMessage(factory.config.org)) && unchanged(repo)
      ensures old(Authenticates()) && branch !in old(repo.store).refs ==> r == Failure(NotFound) && unchanged(repo)
      ensures old(Authenticates()) && branch in old(repo.store).refs ==>
        var head := old(repo.store).refs[branch];
        var blob := repo.hash(Blob(content));
        var tree := Tree(Files(old(repo.store), branch)[path := TreeEntry(RegularFileMode, "blob", blob)]);
        var commit := Commit(repo.hash(tree), [head], message);
        && repo.requests == old(repo.requests) + PlumbingRequests(old(repo.store), repo.hash, branch, path, content, message)
        && repo.store == CommitFile(old(repo.store), repo.hash, branch, path, content, message)
        && repo.store.refs[branch] == repo.hash(commit)
        && r == Success(GitWrite(repo.hash(commit), message, repo.hash(tree), blob, branch, path))
    {
      var c := GetClient();
      if c.Failure? {
        return Failure(c.error);
      }
      var ref := repo.GetGitRef(branch);
      if ref.Failure? {
        return Failure(NotFound);
      }
      var commitSha, treeSha, blob := CommitThroughPlumbing(repo, branch, ref.value, path, content, message);
      return Success(GitWrite(commitSha, message, treeSha, blob, branch, path));
    }
  }
}
