/**
 * The upload sequence of backend/services.js: `initializeEmptyRepo` and
 * `uploadWithNewBranch`. The provider is not called here. Each request
 * the code would send is appended to a trace together with the answer,
 * which is read from an oracle given as a parameter.
 */
module Upload {
  import opened Options
  import Timestamp
  import Files

  type Sha = string

  /** One element of the `tree` array sent to `git.createTree`. */
  datatype TreeEntry = TreeEntry(path: string, mode: string, kind: string, sha: Sha)

  /** The provider operations the uploader calls, with the arguments it
      decides. `CreateFile` carries the README text before base64 encoding. */
  datatype Call =
    | GetRef(ref: string)
    | CreateFile(path: string, message: string, text: string, branch: string)
    | CreateRef(ref: string, sha: Sha)
    | GetCommit(commitSha: Sha)
    | CreateBlob(content: string, encoding: string)
    | CreateTree(baseTree: Sha, tree: seq<TreeEntry>)
    | CreateCommit(message: string, treeSha: Sha, parents: seq<Sha>)
    | UpdateRef(ref: string, sha: Sha)

  /** A call addressed to one repository. */
  datatype Request = Request(owner: string, repo: string, call: Call)

  /** The provider's answer: success with the SHA the code reads from the
      response (`object.sha` of a ref, `tree.sha` of a commit, `sha` of a new
      blob, tree or commit; unused for the other calls), or a thrown error
      with its HTTP status. */
  datatype Reply = Ok(sha: Sha) | Failed(status: int)

  /** What uploadWithNewBranch resolves to (the new branch's name) or
      rejects with (the provider's error). */
  datatype Outcome = Branch(name: string) | Error(status: int)

  /** A request sent and the answer it got. */
  datatype Exchange = Exchange(request: Request, reply: Reply)

  /** The provider's answer to the request at each position of the trace. */
  type Provider = (nat, Request) -> Reply

  /** The status with which `getRef` reports a repository with no commits. */
  const EmptyRepoStatus := 409
  const ReadmePath := "ReadME.md"
  const ReadmeMessage := "Initial commit: Added README"
  const DefaultDescription := "New repository created via GitHub API."
  /** The description uploadWithNewBranch passes to initializeEmptyRepo. */
  const SetupDescription := "Initial repository setup"
  const FileMode := "100644"
  const BlobKind := "blob"
  const BlobEncoding := "utf-8"
  const CommitMessagePrefix := "Latest code with "

  predicate SignalsEmptyRepo(r: Reply) {
    r.Failed? && r.status == EmptyRepoStatus
  }

  /** The branch a ref names: an optional "refs/" and then "heads/". */
  function RefBranch(ref: string): Option<string> {
    var r := if |ref| >= 5 && ref[..5] == "refs/" then ref[5..] else ref;
    if |r| >= 6 && r[..6] == "heads/" then Some(r[6..]) else None
  }

  /** The short ref form used by `getRef` and `updateRef`. */
  function HeadsRef(branch: string): (ref: string)
    ensures RefBranch(ref) == Some(branch)
  {
    var ref := "heads/" + branch;
    assert ref[0] == 'h' && ref[..6] == "heads/" && ref[6..] == branch;
    ref
  }

  /** The full ref form used by `createRef`. */
  function FullRef(branch: string): (ref: string)
    ensures RefBranch(ref) == Some(branch)
  {
    var ref := "refs/heads/" + branch;
    assert ref[..5] == "refs/" && ref[5..] == HeadsRef(branch);
    ref
  }

  /** The README text of initializeEmptyRepo: a title line naming the
      repository, an empty line, then the description, or the default text
      when the description is empty (JavaScript's `||` on a falsy value). */
  function ReadmeText(repo: string, description: string): (text: string)
    ensures |text| > |repo| + 4
    ensures text[..|repo| + 4] == "# " + repo + "\n\n"
    ensures text[|repo| + 4..] == if description == "" then DefaultDescription else description
  {
    var body := if description == "" then DefaultDescription else description;
    var text := "# " + repo + "\n\n" + body;
    assert text[..|repo| + 4] == "# " + repo + "\n\n";
    text
  }

  /** The one request initializeEmptyRepo sends: create "ReadME.md" with the
      README text on `branch`, which brings that branch into existence. */
  function InitializeEmptyRepo(owner: string, repo: string, branch: string, description: string): (r: Request)
    ensures r.owner == owner && r.repo == repo
    ensures r.call.CreateFile? && r.call.message == ReadmeMessage
    ensures r.call.path == ReadmePath && r.call.branch == branch
    ensures r.call.text == ReadmeText(repo, description)
  {
    Request(owner, repo, CreateFile(ReadmePath, ReadmeMessage, ReadmeText(repo, description), branch))
  }

  /** Every recorded answer is the provider's answer to that request at
      that position. */
  ghost predicate Answered(provider: Provider, trace: seq<Exchange>) {
    forall i | 0 <= i < |trace| :: trace[i].reply == provider(i, trace[i].request)
  }

  /** Where the second `getRef` stands: after the README request when the
      first `getRef` reported an empty repository. */
  function Resolved(trace: seq<Exchange>): nat
    requires 1 <= |trace|
  {
    if SignalsEmptyRepo(trace[0].reply) then 2 else 1
  }

  /** Every answer in the exchanges is a success. */
  predicate AllOk(exchanges: seq<Exchange>) {
    forall i | 0 <= i < |exchanges| :: exchanges[i].reply.Ok?
  }

  /** Every request goes to the repository `repoOwner/repoName`, and none
      of them creates a file. */
  predicate SentTo(repoOwner: string, repoName: string, exchanges: seq<Exchange>) {
    forall i | 0 <= i < |exchanges| ::
      exchanges[i].request.owner == repoOwner && exchanges[i].request.repo == repoName
      && !exchanges[i].request.call.CreateFile?
  }

  lemma SentToAppend(repoOwner: string, repoName: string, a: seq<Exchange>, b: seq<Exchange>)
    requires SentTo(repoOwner, repoName, a) && SentTo(repoOwner, repoName, b)
    ensures SentTo(repoOwner, repoName, a + b)
  {
    forall k | 0 <= k < |a + b|
      ensures (a + b)[k].request.owner == repoOwner && (a + b)[k].request.repo == repoName
      ensures !(a + b)[k].request.call.CreateFile?
    {
      if k < |a| { assert (a + b)[k] == a[k]; } else { assert (a + b)[k] == b[k - |a|]; }
    }
  }

  /** Dropping the first of two runs' exchanges drops the first run's first. */
  lemma DropFirstOfAppend(a: seq<Exchange>, b: seq<Exchange>)
    requires 1 <= |a|
    ensures (a + b)[1..] == a[1..] + b
  {
  }

  /** Two runs of exchanges succeed together exactly when each succeeds. */
  lemma AllOkAppend(a: seq<Exchange>, b: seq<Exchange>)
    ensures AllOk(a + b) <==> AllOk(a) && AllOk(b)
  {
    if AllOk(a) && AllOk(b) {
      forall k | 0 <= k < |a + b| ensures (a + b)[k].reply.Ok? {
        if k < |a| { assert (a + b)[k] == a[k]; } else { assert (a + b)[k] == b[k - |a|]; }
      }
    }
    if AllOk(a + b) {
      forall k | 0 <= k < |a| ensures a[k].reply.Ok? { assert (a + b)[k] == a[k]; }
      forall k | 0 <= k < |b| ensures b[k].reply.Ok? { assert (a + b)[|a| + k] == b[k]; }
    }
  }

  /** The requests stopped at a failure: the last one failed with `status`
      and every one before it succeeded. */
  predicate StoppedAt(exchanges: seq<Exchange>, status: int) {
    && 1 <= |exchanges|
    && AllOk(exchanges[..|exchanges| - 1])
    && exchanges[|exchanges| - 1].reply == Failed(status)
  }

  /** Stopping at a failure after successful requests is stopping there. */
  lemma StoppedAfterOk(done: seq<Exchange>, rest: seq<Exchange>, status: int)
    requires AllOk(done) && StoppedAt(rest, status)
    ensures StoppedAt(done + rest, status)
  {
    assert (done + rest)[..|done + rest| - 1] == done + rest[..|rest| - 1];
    AllOkAppend(done, rest[..|rest| - 1]);
  }

  /** The SHAs answered, in order. */
  function Shas(exchanges: seq<Exchange>): (shas: seq<Sha>)
    requires AllOk(exchanges)
    ensures |shas| == |exchanges|
    ensures forall j | 0 <= j < |exchanges| :: shas[j] == exchanges[j].reply.sha
  {
    if exchanges == [] then [] else [exchanges[0].reply.sha] + Shas(exchanges[1..])
  }

  /** One blob request per file, in order, each with the file's content. */
  ghost predicate BlobsFor(repoOwner: string, repoName: string, sent: seq<Exchange>, files: seq<Files.FileEntry>) {
    && |sent| == |files|
    && forall j | 0 <= j < |files| ::
         sent[j].request == Request(repoOwner, repoName, CreateBlob(files[j].content, BlobEncoding))
  }

  /** The tree entries for the gathered files, given the SHAs of their blobs
      in the same order: path, mode 100644, kind "blob" and the blob. */
  ghost predicate EntriesFor(tree: seq<TreeEntry>, files: seq<Files.FileEntry>, blobShas: seq<Sha>) {
    && |tree| == |files| == |blobShas|
    && forall j | 0 <= j < |files| :: tree[j] == TreeEntry(files[j].path, FileMode, BlobKind, blobShas[j])
  }

  /**
   * A failure inside the blob batch: every request before the batch
   * succeeded, the batch of one blob per file was sent whole, as
   * `Promise.all` sends it, and one of its blobs failed with `status`.
   */
  ghost predicate FailedInBlobBatch(repoOwner: string, repoName: string, sent: seq<Exchange>,
                                    files: seq<Files.FileEntry>, status: int)
  {
    var k := |sent| - |files|;
    && 0 <= k
    && AllOk(sent[..k])
    && BlobsFor(repoOwner, repoName, sent[k..], files)
    && exists i | k <= i < |sent| :: sent[i].reply == Failed(status)
  }

  /** A failure in the blob batch stays one when successful requests come first. */
  lemma BlobBatchAfterOk(repoOwner: string, repoName: string, done: seq<Exchange>, rest: seq<Exchange>,
                         files: seq<Files.FileEntry>, status: int)
    requires AllOk(done) && FailedInBlobBatch(repoOwner, repoName, rest, files, status)
    ensures FailedInBlobBatch(repoOwner, repoName, done + rest, files, status)
  {
    var all := done + rest;
    var k := |rest| - |files|;
    var i :| k <= i < |rest| && rest[i].reply == Failed(status);
    assert |all| - |files| == |done| + k;
    assert all[..|done| + k] == done + rest[..k];
    AllOkAppend(done, rest[..k]);
    assert AllOk(all[..|done| + k]);
    assert all[|done| + k..] == rest[k..];
    assert BlobsFor(repoOwner, repoName, all[|done| + k..], files);
    assert all[|done| + i] == rest[i];
  }

  /** Either way of failing is kept when successful requests come first. */
  lemma FailureAfterOk(repoOwner: string, repoName: string, done: seq<Exchange>, rest: seq<Exchange>,
                       files: seq<Files.FileEntry>, status: int)
    requires AllOk(done)
    requires StoppedAt(rest, status) || FailedInBlobBatch(repoOwner, repoName, rest, files, status)
    ensures StoppedAt(done + rest, status) || FailedInBlobBatch(repoOwner, repoName, done + rest, files, status)
  {
    if StoppedAt(rest, status) {
      StoppedAfterOk(done, rest, status);
    } else {
      BlobBatchAfterOk(repoOwner, repoName, done, rest, files, status);
    }
  }

  /** The first stage as far as it went: the lookup of the base branch;
      after its success, the new branch `name` created at the commit it
      found; after that success, a read of that commit. */
  predicate StartPlan(repoOwner: string, repoName: string, sent: seq<Exchange>, mainBranch: string, name: string) {
    && (1 <= |sent| ==> sent[0].request == Request(repoOwner, repoName, GetRef(HeadsRef(mainBranch))))
    && (2 <= |sent| ==>
         sent[0].reply.Ok? && sent[1].request == Request(repoOwner, repoName, CreateRef(FullRef(name), sent[0].reply.sha)))
    && (3 <= |sent| ==>
         sent[1].reply.Ok? && sent[2].request == Request(repoOwner, repoName, GetCommit(sent[0].reply.sha)))
  }

  /** The requests after the tree, as far as they went: after the tree's
      success, a commit of it whose only parent is `latestCommitSha`; after
      that success, the branch `name` moved to the commit. */
  predicate FinishPlan(repoOwner: string, repoName: string, sent: seq<Exchange>, name: string, latestCommitSha: Sha) {
    && (2 <= |sent| ==>
         && sent[0].reply.Ok?
         && sent[1].request
            == Request(repoOwner, repoName, CreateCommit(CommitMessagePrefix + name, sent[0].reply.sha, [latestCommitSha])))
    && (3 <= |sent| ==>
         sent[1].reply.Ok? && sent[2].request == Request(repoOwner, repoName, UpdateRef(HeadsRef(name), sent[1].reply.sha)))
  }

  /** The second stage as far as it went: the whole blob batch; after its
      success, a tree on `baseTreeSha` with one entry per file and its blob,
      then the requests of FinishPlan. */
  ghost predicate BuildPlan(repoOwner: string, repoName: string, sent: seq<Exchange>, name: string,
                            latestCommitSha: Sha, baseTreeSha: Sha, files: seq<Files.FileEntry>)
  {
    var n := |files|;
    && n <= |sent| <= n + 3
    && BlobsFor(repoOwner, repoName, sent[..n], files)
    && (n < |sent| ==>
         && AllOk(sent[..n])
         && sent[n].request.owner == repoOwner && sent[n].request.repo == repoName
         && sent[n].request.call.CreateTree?
         && sent[n].request.call.baseTree == baseTreeSha
         && EntriesFor(sent[n].request.call.tree, files, Shas(sent[..n]))
         && FinishPlan(repoOwner, repoName, sent[n..], name, latestCommitSha))
  }

  /**
   * The requests of an upload from the second lookup of the base branch
   * on, as far as they went, whatever the answers: each request is the one
   * uploadWithNewBranch sends next given the answers before it. After the
   * first stage succeeded, the commit found is the parent and the tree of
   * the commit read is the base tree.
   */
  ghost predicate FollowsPlan(repoOwner: string, repoName: string, sent: seq<Exchange>,
                              mainBranch: string, name: string, files: seq<Files.FileEntry>)
  {
    && StartPlan(repoOwner, repoName, sent, mainBranch, name)
    && (3 < |sent| ==>
         && sent[0].reply.Ok? && sent[2].reply.Ok?
         && BuildPlan(repoOwner, repoName, sent[3..], name, sent[0].reply.sha, sent[2].reply.sha, files))
  }

  /**
   * The requests of an upload that succeeded, from the second lookup of
   * the base branch on, as uploadWithNewBranch sends them: look up the
   * base branch; create the new branch at the commit found; read that
   * commit's tree; one blob per gathered file, in order; a tree on the base
   * tree with one entry per file, in order, each with the file's path,
   * mode 100644 and its blob; a commit of that tree whose only parent is
   * the commit found; and the new branch moved to that commit.
   */
  ghost predicate CommittedAsNewBranch(repoOwner: string, repoName: string, sent: seq<Exchange>,
                                       mainBranch: string, name: string, files: seq<Files.FileEntry>)
  {
    && |sent| == |files| + 6
    && AllOk(sent)
    && FollowsPlan(repoOwner, repoName, sent, mainBranch, name, files)
  }

  /**
   * Requests that follow the plan create one ref only, the new branch
   * `name` at the commit the lookup found, as the second request, and move
   * no ref but that branch, as the last request.
   */
  lemma PlanTouchesOnlyNewBranch(repoOwner: string, repoName: string, sent: seq<Exchange>,
                                 mainBranch: string, name: string, files: seq<Files.FileEntry>)
    requires FollowsPlan(repoOwner, repoName, sent, mainBranch, name, files)
    ensures forall i | 0 <= i < |sent| && sent[i].request.call.CreateRef? ::
      i == 1 && sent[0].reply.Ok? && sent[i].request.call == CreateRef(FullRef(name), sent[0].reply.sha)
    ensures forall i | 0 <= i < |sent| && sent[i].request.call.UpdateRef? ::
      i == |files| + 5 && sent[i].request.call.ref == HeadsRef(name)
  {
    var n := |files|;
    forall i | 3 <= i < |sent|
      ensures !sent[i].request.call.CreateRef?
      ensures sent[i].request.call.UpdateRef? ==> i == n + 5 && sent[i].request.call.ref == HeadsRef(name)
    {
      var build := sent[3..];
      assert sent[i] == build[i - 3];
      if i - 3 < n {
        assert build[i - 3] == build[..n][i - 3];
      } else {
        assert build[i - 3] == build[n..][i - 3 - n];
      }
    }
  }

  /** Sends one request after `trace`: reads the provider's answer. */
  method Send(provider: Provider, trace: seq<Exchange>, request: Request) returns (exchange: Exchange)
    requires Answered(provider, trace)
    ensures exchange.request == request && exchange.reply == provider(|trace|, request)
    ensures Answered(provider, trace + [exchange])
  {
    exchange := Exchange(request, provider(|trace|, request));
  }

  /**
   * The first part of uploadWithNewBranch: look up the base branch; on a
   * 409 treat the repository as empty and create its README on the base
   * branch; rethrow any other failure. `failure` is the error thrown, if any.
   */
  method ResolveBaseBranch(repoOwner: string, repoName: string, mainBranch: string, provider: Provider)
    returns (trace: seq<Exchange>, failure: Option<int>)
    ensures Answered(provider, trace)
    ensures 1 <= |trace| <= 2
    ensures trace[0].request == Request(repoOwner, repoName, GetRef(HeadsRef(mainBranch)))
    ensures |trace| == 2 <==> SignalsEmptyRepo(trace[0].reply)
    ensures |trace| == 2 ==> trace[1].request == InitializeEmptyRepo(repoOwner, repoName, mainBranch, SetupDescription)
    ensures failure.None? <==> trace[|trace| - 1].reply.Ok?
    ensures failure.Some? ==> trace[|trace| - 1].reply == Failed(failure.value)
  {
    var isRepoEmpty := false;
    var lookup := Send(provider, [], Request(repoOwner, repoName, GetRef(HeadsRef(mainBranch))));
    trace := [lookup];
    if lookup.reply.Failed? {
      if lookup.reply.status == EmptyRepoStatus {
        isRepoEmpty := true;
      } else {
        return trace, Some(lookup.reply.status);
      }
    }
    failure := None;
    if isRepoEmpty {
      var init := Send(provider, trace, InitializeEmptyRepo(repoOwner, repoName, mainBranch, SetupDescription));
      trace := trace + [init];
      if init.reply.Failed? {
        failure := Some(init.reply.status);
      }
    }
  }

  /**
   * Look up the base branch after `trace0`, create the branch `name` at
   * the commit found and read that commit. Stops at the first failure.
   */
  method StartBranch(repoOwner: string, repoName: string, mainBranch: string, name: string,
                     provider: Provider, trace0: seq<Exchange>)
    returns (sent: seq<Exchange>, failure: Option<int>)
    requires Answered(provider, trace0)
    ensures Answered(provider, trace0 + sent)
    ensures 1 <= |sent| <= 3
    ensures StartPlan(repoOwner, repoName, sent, mainBranch, name)
    ensures failure.None? <==> |sent| == 3 && AllOk(sent)
    ensures failure.Some? ==> StoppedAt(sent, failure.value)
    ensures SentTo(repoOwner, repoName, sent)
  {
    var lookup := Send(provider, trace0, Request(repoOwner, repoName, GetRef(HeadsRef(mainBranch))));
    sent := [lookup];
    if lookup.reply.Failed? {
      return sent, Some(lookup.reply.status);
    }
    var latestCommitSha := lookup.reply.sha;

    var create := Send(provider, trace0 + sent, Request(repoOwner, repoName, CreateRef(FullRef(name), latestCommitSha)));
    sent := sent + [create];
    if create.reply.Failed? {
      return sent, Some(create.reply.status);
    }

    var commit := Send(provider, trace0 + sent, Request(repoOwner, repoName, GetCommit(latestCommitSha)));
    sent := sent + [commit];
    if commit.reply.Failed? {
      return sent, Some(commit.reply.status);
    }
    failure := None;
  }

  /**
   * The `Promise.all` over the gathered files: one blob request per file,
   * in order, all of them sent after `trace0`. It fails if any blob failed,
   * with the error of the first failed one; otherwise `entries` are the
   * tree entries for the files.
   */
  method CreateBlobs(repoOwner: string, repoName: string, files: seq<Files.FileEntry>,
                     provider: Provider, trace0: seq<Exchange>)
    returns (sent: seq<Exchange>, entries: seq<TreeEntry>, failure: Option<int>)
    requires Answered(provider, trace0)
    ensures Answered(provider, trace0 + sent)
    ensures BlobsFor(repoOwner, repoName, sent, files)
    ensures failure.None? <==> AllOk(sent)
    ensures failure.Some? ==> exists i | 0 <= i < |sent| :: sent[i].reply == Failed(failure.value)
    ensures failure.None? ==> EntriesFor(entries, files, Shas(sent))
    ensures SentTo(repoOwner, repoName, sent)
  {
    sent, entries, failure := [], [], None;
    for j := 0 to |files|
      invariant Answered(provider, trace0 + sent)
      invariant |sent| == j
      invariant forall i | 0 <= i < j ::
        sent[i].request == Request(repoOwner, repoName, CreateBlob(files[i].content, BlobEncoding))
      invariant failure.None? <==> AllOk(sent)
      invariant failure.Some? ==> exists i | 0 <= i < j :: sent[i].reply == Failed(failure.value)
      invariant failure.None? ==> |entries| == j
      invariant failure.None? ==> forall i | 0 <= i < j ::
        entries[i] == TreeEntry(files[i].path, FileMode, BlobKind, sent[i].reply.sha)
    {
      var blob := Send(provider, trace0 + sent, Request(repoOwner, repoName, CreateBlob(files[j].content, BlobEncoding)));
      assert trace0 + sent + [blob] == trace0 + (sent + [blob]);
      sent := sent + [blob];
      if blob.reply.Failed? {
        if failure.None? {
          failure := Some(blob.reply.status);
        }
      } else {
        entries := entries + [TreeEntry(files[j].path, FileMode, BlobKind, blob.reply.sha)];
      }
    }
  }

  /**
   * Create the tree on `baseTreeSha` with `entries`, a commit of it whose
   * only parent is `latestCommitSha`, and move the branch `name` to that
   * commit. Stops at the first failure.
   */
  method FinishCommit(repoOwner: string, repoName: string, name: string, latestCommitSha: Sha,
                      baseTreeSha: Sha, entries: seq<TreeEntry>, provider: Provider, trace0: seq<Exchange>)
    returns (sent: seq<Exchange>, failure: Option<int>)
    requires Answered(provider, trace0)
    ensures Answered(provider, trace0 + sent)
    ensures 1 <= |sent| <= 3
    ensures sent[0].request == Request(repoOwner, repoName, CreateTree(baseTreeSha, entries))
    ensures FinishPlan(repoOwner, repoName, sent, name, latestCommitSha)
    ensures failure.None? <==> |sent| == 3 && AllOk(sent)
    ensures failure.Some? ==> StoppedAt(sent, failure.value)
    ensures SentTo(repoOwner, repoName, sent)
  {
    var tree := Send(provider, trace0, Request(repoOwner, repoName, CreateTree(baseTreeSha, entries)));
    sent := [tree];
    if tree.reply.Failed? {
      return sent, Some(tree.reply.status);
    }

    var commit := Send(provider, trace0 + sent,
      Request(repoOwner, repoName, CreateCommit(CommitMessagePrefix + name, tree.reply.sha, [latestCommitSha])));
    sent := sent + [commit];
    if commit.reply.Failed? {
      return sent, Some(commit.reply.status);
    }

    var update := Send(provider, trace0 + sent, Request(repoOwner, repoName, UpdateRef(HeadsRef(name), commit.reply.sha)));
    sent := sent + [update];
    if update.reply.Failed? {
      return sent, Some(update.reply.status);
    }
    failure := None;
  }

  /**
   * The blobs, the tree, the commit and the branch update, after `trace0`:
   * the `Promise.all` over the files, then the three requests that commit
   * them on top of `latestCommitSha` and move the branch `name` there.
   */
  method BuildCommit(repoOwner: string, repoName: string, name: string, latestCommitSha: Sha, baseTreeSha: Sha,
                     files: seq<Files.FileEntry>, provider: Provider, trace0: seq<Exchange>)
    returns (sent: seq<Exchange>, failure: Option<int>)
    requires Answered(provider, trace0)
    ensures Answered(provider, trace0 + sent)
    ensures BuildPlan(repoOwner, repoName, sent, name, latestCommitSha, baseTreeSha, files)
    ensures SentTo(repoOwner, repoName, sent)
    ensures failure.None? <==> AllOk(sent)
    ensures failure.Some? ==>
      StoppedAt(sent, failure.value) || FailedInBlobBatch(repoOwner, repoName, sent, files, failure.value)
    ensures failure.None? ==> |sent| == |files| + 3
  {
    var blobs, entries, blobFailure := CreateBlobs(repoOwner, repoName, files, provider, trace0);
    sent := blobs;
    assert sent[..|files|] == blobs;
    if blobFailure.Some? {
      assert sent[..0] == [] && sent[0..] == blobs;
      return sent, blobFailure;
    }

    var finish;
    finish, failure := FinishCommit(repoOwner, repoName, name, latestCommitSha, baseTreeSha,
                                    entries, provider, trace0 + sent);
    assert trace0 + sent + finish == trace0 + (sent + finish);
    AllOkAppend(sent, finish);
    SentToAppend(repoOwner, repoName, sent, finish);
    if failure.Some? {
      StoppedAfterOk(sent, finish, failure.value);
    }
    sent := sent + finish;
    assert sent[..|files|] == blobs;
    assert sent[|files|..] == finish;
    assert sent[|files|] == finish[0];
  }

  /**
   * The second part of uploadWithNewBranch, after `trace0`: start the
   * branch, then build the commit on it, stopping at the first failure.
   */
  method CommitFolder(repoOwner: string, repoName: string, mainBranch: string, name: string,
                      files: seq<Files.FileEntry>, provider: Provider, trace0: seq<Exchange>)
    returns (sent: seq<Exchange>, result: Outcome)
    requires Answered(provider, trace0)
    ensures Answered(provider, trace0 + sent)
    ensures 1 <= |sent|
    ensures SentTo(repoOwner, repoName, sent)
    ensures sent[0].request.call == GetRef(HeadsRef(mainBranch))
    ensures FollowsPlan(repoOwner, repoName, sent, mainBranch, name, files)
    ensures result.Branch? <==> AllOk(sent)
    ensures result.Error? ==>
      StoppedAt(sent, result.status) || FailedInBlobBatch(repoOwner, repoName, sent, files, result.status)
    ensures result.Branch? ==>
      result.name == name && CommittedAsNewBranch(repoOwner, repoName, sent, mainBranch, name, files)
  {
    var start, failure := StartBranch(repoOwner, repoName, mainBranch, name, provider, trace0);
    if failure.Some? {
      return start, Error(failure.value);
    }

    var build, buildFailure := BuildCommit(repoOwner, repoName, name, start[0].reply.sha, start[2].reply.sha,
                                           files, provider, trace0 + start);
    assert trace0 + start + build == trace0 + (start + build);
    AllOkAppend(start, build);
    SentToAppend(repoOwner, repoName, start, build);
    sent := start + build;
    assert sent[0] == start[0] && sent[1] == start[1] && sent[2] == start[2];
    assert sent[3..] == build;
    if buildFailure.Some? {
      FailureAfterOk(repoOwner, repoName, start, build, files, buildFailure.value);
      return sent, Error(buildFailure.value);
    }
    result := Branch(name);
  }

  /**
   * A trace of uploadWithNewBranch creates a file exactly once, as its
   * second request, and only when the first lookup answered 409: its
   * first request is a lookup, the README follows a 409, and the requests
   * after that create no file.
   */
  lemma ReadmeOnlyOnEmpty(repoOwner: string, repoName: string, trace: seq<Exchange>)
    requires 1 <= |trace| && Resolved(trace) <= |trace|
    requires trace[0].request.call.GetRef?
    requires SignalsEmptyRepo(trace[0].reply) ==> trace[1].request.call.CreateFile?
    requires SentTo(repoOwner, repoName, trace[Resolved(trace)..])
    ensures forall i | 0 <= i < |trace| ::
      trace[i].request.call.CreateFile? <==> i == 1 && SignalsEmptyRepo(trace[0].reply)
  {
    var k := Resolved(trace);
    forall i | k <= i < |trace|
      ensures !trace[i].request.call.CreateFile?
    {
      assert trace[i] == trace[k..][i - k];
    }
  }

  /**
   * How the whole upload's requests split into `head`, the first lookup
   * (and the README after a 409) that did not fail, and `sent`, the
   * requests of CommitFolder after it; and when the whole upload succeeds.
   */
  lemma ResolvedThenCommitted(head: seq<Exchange>, sent: seq<Exchange>, result: Outcome, trace: seq<Exchange>)
    requires trace == head + sent
    requires 1 <= |head| <= 2 && (|head| == 2 <==> SignalsEmptyRepo(head[0].reply))
    requires head[|head| - 1].reply.Ok?
    requires result.Branch? <==> AllOk(sent)
    ensures Resolved(trace) == |head| && trace[Resolved(trace)..] == sent
    ensures result.Branch? <==>
      (trace[0].reply.Ok? || SignalsEmptyRepo(trace[0].reply)) && AllOk(trace[1..])
  {
    assert trace[0] == head[0];
    assert trace[|head|..] == sent;
    var done := head[1..];
    assert |done| == 1 ==> done[0] == head[|head| - 1];
    DropFirstOfAppend(head, sent);
    AllOkAppend(done, sent);
  }

  /**
   * An error of CommitFolder after `head`, the first lookup (and the
   * README after a 409) that did not fail, is one of the whole upload:
   * past a 409, the requests stop at the failing one or end with the blob
   * batch it failed in.
   */
  lemma FailedAfterResolved(repoOwner: string, repoName: string, head: seq<Exchange>, sent: seq<Exchange>,
                            files: seq<Files.FileEntry>, status: int, trace: seq<Exchange>)
    requires trace == head + sent
    requires 1 <= |head| <= 2 && (|head| == 2 <==> SignalsEmptyRepo(head[0].reply))
    requires head[|head| - 1].reply.Ok?
    requires StoppedAt(sent, status) || FailedInBlobBatch(repoOwner, repoName, sent, files, status)
    ensures
      var rest := if SignalsEmptyRepo(trace[0].reply) then trace[1..] else trace;
      StoppedAt(rest, status) || FailedInBlobBatch(repoOwner, repoName, rest, files, status)
  {
    assert trace[0] == head[0];
    if SignalsEmptyRepo(head[0].reply) {
      var done := head[1..];
      assert done == [head[1]];
      DropFirstOfAppend(head, sent);
      FailureAfterOk(repoOwner, repoName, done, sent, files, status);
    } else {
      FailureAfterOk(repoOwner, repoName, head, sent, files, status);
    }
  }

  /**
   * uploadWithNewBranch. Returns the requests sent, in order, each with
   * the provider's answer, and the outcome. `now` is the moment the branch
   * name is made and `folder` the listing of the folder to upload.
   */
  method UploadWithNewBranch(repoOwner: string, repoName: string, folder: seq<Files.Item>,
                             mainBranch: string, now: Timestamp.DateTime, provider: Provider)
    returns (trace: seq<Exchange>, result: Outcome)
    ensures Answered(provider, trace)
    ensures 1 <= |trace| && Resolved(trace) <= |trace|
    // the first request looks up the base branch; a 409 is followed by the README, on the base branch
    ensures trace[0].request == Request(repoOwner, repoName, GetRef(HeadsRef(mainBranch)))
    ensures SignalsEmptyRepo(trace[0].reply) ==>
      trace[1].request == InitializeEmptyRepo(repoOwner, repoName, mainBranch, SetupDescription)
    // any other failure of that lookup is rethrown before anything else is sent
    ensures trace[0].reply.Failed? && !SignalsEmptyRepo(trace[0].reply) ==>
      |trace| == 1 && result == Error(trace[0].reply.status)
    // every later request goes to the same repository, and none of them creates a file
    // (with the two clauses above, ReadmeOnlyOnEmpty: the README is the only file created, and only after a 409)
    ensures SentTo(repoOwner, repoName, trace[Resolved(trace)..])
    // and each of them is the one the code sends next, given the answers before it
    ensures FollowsPlan(repoOwner, repoName, trace[Resolved(trace)..], mainBranch,
                        Timestamp.BranchName(now), Files.Flatten(folder, ""))
    // success exactly when no answer but that 409 failed
    ensures result.Branch? <==>
      (trace[0].reply.Ok? || SignalsEmptyRepo(trace[0].reply)) && AllOk(trace[1..])
    // an error stops the requests at the failing one, or ends them with the blob batch it failed in
    ensures result.Error? ==>
      var rest := if SignalsEmptyRepo(trace[0].reply) then trace[1..] else trace;
      StoppedAt(rest, result.status)
      || FailedInBlobBatch(repoOwner, repoName, rest, Files.Flatten(folder, ""), result.status)
    // a success returns the branch named after `now`, made as CommittedAsNewBranch says
    ensures result.Branch? ==>
      && result.name == Timestamp.BranchName(now)
      && CommittedAsNewBranch(repoOwner, repoName, trace[Resolved(trace)..], mainBranch, result.name, Files.Flatten(folder, ""))
  {
    var failure;
    trace, failure := ResolveBaseBranch(repoOwner, repoName, mainBranch, provider);
    if failure.Some? {
      // the failing request is the last, alone after any 409
      ghost var rest := if SignalsEmptyRepo(trace[0].reply) then trace[1..] else trace;
      assert |rest| == 1 && rest[..0] == [];
      return trace, Error(failure.value);
    }
    var timestampName := Timestamp.BranchName(now);
    var filesToUpload := Files.GatherFiles(folder, "");
    var head := trace;
    var sent;
    sent, result := CommitFolder(repoOwner, repoName, mainBranch, timestampName, filesToUpload, provider, head);
    trace := head + sent;
    ResolvedThenCommitted(head, sent, result, trace);
    if result.Error? {
      FailedAfterResolved(repoOwner, repoName, head, sent, filesToUpload, result.status, trace);
    }
  }
}
