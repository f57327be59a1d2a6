/**
 * The strategies that bring upstream's theme into the local branch (rebase, downgrade by
 * checkout, clean replacement, regular merge), the settling of a failed attempt into conflicts or
 * an error, and the restore-or-roll-back step that ends a clean update.
 */
module MergeStrategies {
  import opened Wrappers
  import opened Text
  import opened UpdateTypes
  import opened Gateway
  import opened Tags
  import opened Conflicts
  import opened FetchInfo

  /** How one user file fared when resolved with the local side. */
  datatype FileOutcome =
    | Resolved                    // checkout --ours and add both succeeded
    | CheckoutFailed              // checkout --ours failed
    | StageFailed(restored: bool) // add failed; whether checkout -m restored the conflict markers

  /** The commands issued for one user file and their outcomes. */
  function ResolveRuns(file: string, o: FileOutcome): seq<Run> {
    match o
    case Resolved => [Run(CheckoutOurs(file), true), Run(AddPath(file), true)]
    case CheckoutFailed => [Run(CheckoutOurs(file), false)]
    case StageFailed(restored) =>
      [Run(CheckoutOurs(file), true), Run(AddPath(file), false), Run(CheckoutMerge(file), restored)]
  }

  /** The commands issued for a list of user files, file by file. */
  function ResolveLog(files: seq<string>, outcomes: seq<FileOutcome>): seq<Run>
    requires |files| == |outcomes|
    decreases |files|
  {
    if files == [] then []
    else
      var n := |files| - 1;
      ResolveLog(files[..n], outcomes[..n]) + ResolveRuns(files[n], outcomes[n])
  }

  /** The files whose outcome is not `Resolved`, in order. */
  function FailedFiles(files: seq<string>, outcomes: seq<FileOutcome>): (r: seq<string>)
    requires |files| == |outcomes|
    ensures |r| <= |files|
    ensures forall f :: f in r ==> exists k :: 0 <= k < |files| && files[k] == f && !outcomes[k].Resolved?
    ensures forall k :: 0 <= k < |files| && !outcomes[k].Resolved? ==> files[k] in r
    decreases |files|
  {
    if files == [] then []
    else
      var n := |files| - 1;
      var init := FailedFiles(files[..n], outcomes[..n]);
      if outcomes[n].Resolved? then init else init + [files[n]]
  }

  /**
   * One step of `autoResolveUserContent`: `checkout --ours` then `add`; when only the `add`
   * failed, `checkout -m` puts the conflict markers back. HEAD does not move.
   */
  method ResolveOne(repo: Repo, file: string) returns (resolved: bool, ghost outcome: FileOutcome)
    requires repo.Consistent()
    modifies repo
    ensures repo.Consistent() && repo.head == old(repo.head)
    ensures repo.log == old(repo.log) + ResolveRuns(file, outcome)
    ensures resolved <==> outcome.Resolved?
  {
    ghost var log0 := repo.log;
    var checkout := repo.GitSafe(CheckoutOurs(file));
    if checkout.None? {
      return false, CheckoutFailed;
    }
    ghost var log1 := repo.log;
    var add := repo.GitSafe(AddPath(file));
    if add.Some? {
      assert repo.log == log0 + [Run(CheckoutOurs(file), true), Run(AddPath(file), true)];
      return true, Resolved;
    }
    ghost var log2 := repo.log;
    var restored := repo.GitSafe(CheckoutMerge(file));
    assert repo.log == log0 + [Run(CheckoutOurs(file), true), Run(AddPath(file), false), Run(CheckoutMerge(file), restored.Some?)];
    return false, StageFailed(restored.Some?);
  }

  /**
   * `autoResolveUserContent`: resolve each user file with the local side and report, in order,
   * the files where that failed. HEAD does not move.
   */
  method AutoResolveUserContent(repo: Repo, files: seq<string>) returns (failed: seq<string>, ghost outcomes: seq<FileOutcome>)
    requires repo.Consistent()
    modifies repo
    ensures repo.Consistent()
    ensures |outcomes| == |files|
    ensures repo.log == old(repo.log) + ResolveLog(files, outcomes)
    ensures failed == FailedFiles(files, outcomes)
    ensures repo.head == old(repo.head)
  {
    failed := [];
    outcomes := [];
    for i := 0 to |files|
      invariant repo.Consistent()
      invariant |outcomes| == i
      invariant repo.log == old(repo.log) + ResolveLog(files[..i], outcomes)
      invariant failed == FailedFiles(files[..i], outcomes)
      invariant repo.head == old(repo.head)
    {
      ghost var before := repo.log;
      var resolved, outcome := ResolveOne(repo, files[i]);
      if !resolved {
        failed := failed + [files[i]];
      }
      ResolvedStep(files, i, outcomes, outcome);
      AppendRuns(old(repo.log), ResolveLog(files[..i], outcomes), ResolveRuns(files[i], outcome));
      outcomes := outcomes + [outcome];
    }
    assert files[..|files|] == files;
  }

  lemma AppendRuns(log: seq<Run>, a: seq<Run>, b: seq<Run>)
    ensures (log + a) + b == log + (a + b)
  {
  }

  /** Resolving one more file appends its runs to the log and, when it failed, the file to the failed list. */
  lemma ResolvedStep(files: seq<string>, i: nat, outcomes: seq<FileOutcome>, o: FileOutcome)
    requires |outcomes| == i < |files|
    ensures ResolveLog(files[..i + 1], outcomes + [o]) == ResolveLog(files[..i], outcomes) + ResolveRuns(files[i], o)
    ensures FailedFiles(files[..i + 1], outcomes + [o])
         == FailedFiles(files[..i], outcomes) + (if o.Resolved? then [] else [files[i]])
  {
    assert files[..i + 1][..i] == files[..i];
    assert (outcomes + [o])[..i] == outcomes;
  }

  /** A file is reported as failed exactly when its `checkout --ours` or its `add` did not succeed. */
  lemma FailedIffNotStaged(files: seq<string>, outcomes: seq<FileOutcome>, k: nat)
    requires |files| == |outcomes| && NoDup(files) && k < |files|
    ensures files[k] in FailedFiles(files, outcomes) <==> !outcomes[k].Resolved?
  {
    if files[k] in FailedFiles(files, outcomes) {
      var j :| 0 <= j < |files| && files[j] == files[k] && !outcomes[j].Resolved?;
      assert j == k;
    }
  }

  /** The log of one file shows whether it was resolved: both of its first two commands succeeded. */
  lemma ResolvedIffBothSucceeded(file: string, o: FileOutcome)
    ensures o.Resolved? <==> |ResolveRuns(file, o)| >= 2 && ResolveRuns(file, o)[0].ok && ResolveRuns(file, o)[1].ok
    ensures ResolveRuns(file, o)[0] == Run(CheckoutOurs(file), !o.CheckoutFailed?)
  {
  }

  /** The value of `getVersionInfo` given the normalised tag and the `git show <ref>:package.json` answer. */
  function VersionInfoOf(normalizedTag: Option<string>, manifest: Option<string>, read: ManifestReader): (v: string)
    ensures v != ""
    ensures !Truthy(normalizedTag) ==> v == "latest" || (StartsWith(v, "v") && |v| > 1)
  {
    if Truthy(normalizedTag) then normalizedTag.value
    else match ManifestVersion(manifest, read)
      case Some(version) => "v" + version
      case None => "latest"
  }

  /** The commands `getVersionInfo` issues: the manifest query, unless a tag was given. */
  function VersionCmds(targetRef: string, normalizedTag: Option<string>): seq<GitCmd> {
    if Truthy(normalizedTag) then [] else [ShowManifest(targetRef)]
  }

  /** The runs of `getVersionInfo` from position `k`. */
  function VersionRuns(repo: Repo, k: nat, targetRef: string, normalizedTag: Option<string>): (r: seq<Run>)
    ensures Cmds(r) == VersionCmds(targetRef, normalizedTag)
  {
    if Truthy(normalizedTag) then [] else [RunAt(repo, k, ShowManifest(targetRef))]
  }

  /** The version `getVersionInfo` reports when its manifest query, if any, is issued at position `k`. */
  function VersionAt(repo: Repo, k: nat, targetRef: string, normalizedTag: Option<string>, read: ManifestReader): string {
    VersionInfoOf(normalizedTag, Answer(repo.reply(k, ShowManifest(targetRef))), read)
  }

  /** `getVersionInfo`: the manifest is read from the target ref only when no tag was given. */
  method VersionInfo(repo: Repo, targetRef: string, normalizedTag: Option<string>, read: ManifestReader) returns (v: string)
    requires repo.Consistent()
    modifies repo
    ensures repo.Consistent() && repo.head == old(repo.head)
    ensures repo.log == old(repo.log) + VersionRuns(repo, |old(repo.log)|, targetRef, normalizedTag)
    ensures v == VersionAt(repo, |old(repo.log)|, targetRef, normalizedTag, read)
  {
    if Truthy(normalizedTag) {
      return normalizedTag.value;
    }
    var content := repo.GitSafe(ShowManifest(targetRef));
    v := VersionInfoOf(normalizedTag, content, read);
  }

  /** One `git rm` per batch. */
  function RemoveCmds(batches: seq<seq<string>>): seq<GitCmd> {
    if batches == [] then [] else [Remove(batches[0])] + RemoveCmds(batches[1..])
  }

  /** The batches after position `i` are the batch at `i` followed by those after it. */
  lemma ChunksFrom(files: seq<string>, i: nat, end: nat)
    requires i < end <= |files|
    requires end == if i + BATCH_SIZE < |files| then i + BATCH_SIZE else |files|
    ensures Chunks(files[i..], BATCH_SIZE) == [files[i..end]] + Chunks(files[end..], BATCH_SIZE)
  {
    if end == |files| {
      assert files[i..end] == files[i..] && |files[i..]| <= BATCH_SIZE;
      assert files[end..] == [];
    } else {
      assert |files[i..]| > BATCH_SIZE;
      assert files[i..][..BATCH_SIZE] == files[i..end];
      assert files[i..][BATCH_SIZE..] == files[end..];
    }
  }

  /** The runs of the `git rm` batches issued from position `k`, one per batch, in order. */
  function BatchRuns(repo: Repo, k: nat, batches: seq<seq<string>>): seq<Run>
    decreases |batches|
  {
    if batches == [] then [] else [RunAt(repo, k, Remove(batches[0]))] + BatchRuns(repo, k + 1, batches[1..])
  }

  /** The batch runs issue exactly one `git rm` per batch. */
  lemma {:induction false} BatchRunsCmds(repo: Repo, k: nat, batches: seq<seq<string>>)
    ensures Cmds(BatchRuns(repo, k, batches)) == RemoveCmds(batches)
    decreases |batches|
  {
    if batches != [] {
      BatchRunsCmds(repo, k + 1, batches[1..]);
      CmdsAppend([RunAt(repo, k, Remove(batches[0]))], BatchRuns(repo, k + 1, batches[1..]));
      assert Cmds([RunAt(repo, k, Remove(batches[0]))]) == [Remove(batches[0])];
    }
  }

  /** The batches still to go from `i` are the batch at `i`, issued at `k`, and those after it. */
  lemma BatchRunsFrom(repo: Repo, k: nat, files: seq<string>, i: nat, end: nat)
    requires i < end <= |files|
    requires end == if i + BATCH_SIZE < |files| then i + BATCH_SIZE else |files|
    ensures BatchRuns(repo, k, Chunks(files[i..], BATCH_SIZE))
         == [RunAt(repo, k, Remove(files[i..end]))] + BatchRuns(repo, k + 1, Chunks(files[end..], BATCH_SIZE))
  {
    ChunksFrom(files, i, end);
    var rest := Chunks(files[end..], BATCH_SIZE);
    assert ([files[i..end]] + rest)[1..] == rest;
  }

  /** The `git rm` loop: one removal per batch of at most `BATCH_SIZE` files, in order. HEAD does not move. */
  method RemoveInBatches(repo: Repo, files: seq<string>)
    requires repo.Consistent()
    modifies repo
    ensures repo.Consistent() && repo.head == old(repo.head)
    ensures repo.log == old(repo.log) + BatchRuns(repo, |old(repo.log)|, Chunks(files, BATCH_SIZE))
  {
    ghost var log0 := repo.log;
    var i := 0;
    assert files[i..] == files;
    while i < |files|
      invariant 0 <= i <= |files|
      invariant repo.Consistent() && repo.head == old(repo.head)
      invariant log0 + BatchRuns(repo, |log0|, Chunks(files, BATCH_SIZE))
             == repo.log + BatchRuns(repo, |repo.log|, Chunks(files[i..], BATCH_SIZE))
      decreases |files| - i
    {
      var end := if i + BATCH_SIZE < |files| then i + BATCH_SIZE else |files|;
      ghost var before := repo.log;
      BatchRunsFrom(repo, |before|, files, i, end);
      var removedOk := repo.GitSafe(Remove(files[i..end]));
      AppendRuns(before, [RunAt(repo, |before|, Remove(files[i..end]))],
        BatchRuns(repo, |before| + 1, Chunks(files[end..], BATCH_SIZE)));
      i := end;
    }
    assert files[i..] == [];
  }

  /** The files a clean update deletes when the two listings are issued at positions `k` and `k + 1`. */
  function RemovedAt(repo: Repo, k: nat, targetRef: string): seq<string> {
    DeletedFiles(Answer(repo.reply(k, ListFiles)), Answer(repo.reply(k + 1, ListTree(targetRef))))
  }

  /** The runs of the two listings of `removeDeletedUpstreamFiles` from position `k`. */
  function ListingRuns(repo: Repo, k: nat, targetRef: string): seq<Run> {
    [RunAt(repo, k, ListFiles), RunAt(repo, k + 1, ListTree(targetRef))]
  }

  /** The listings are `git ls-files` and then `git ls-tree -r --name-only <ref>`. */
  lemma ListingCmds(repo: Repo, k: nat, targetRef: string)
    ensures Cmds(ListingRuns(repo, k, targetRef)) == [ListFiles, ListTree(targetRef)]
  {
    var runs := ListingRuns(repo, k, targetRef);
    assert runs == [runs[0]] + [runs[1]];
    CmdsAppend([runs[0]], [runs[1]]);
    assert [runs[0]][..0] == [] && [runs[1]][..0] == [];
  }

  /** The runs of `removeDeletedUpstreamFiles` from position `k`: the two listings, then the batches. */
  function RemovalRuns(repo: Repo, k: nat, targetRef: string): seq<Run> {
    ListingRuns(repo, k, targetRef) + BatchRuns(repo, k + 2, Chunks(RemovedAt(repo, k, targetRef), BATCH_SIZE))
  }

  /** The two listings of `removeDeletedUpstreamFiles` and the files they leave to delete. */
  method ListRemovable(repo: Repo, targetRef: string) returns (files: seq<string>)
    requires repo.Consistent()
    modifies repo
    ensures repo.Consistent() && repo.head == old(repo.head)
    ensures repo.log == old(repo.log) + [RunAt(repo, |old(repo.log)|, ListFiles)] + [RunAt(repo, |old(repo.log)| + 1, ListTree(targetRef))]
    ensures files == RemovedAt(repo, |old(repo.log)|, targetRef)
  {
    ghost var k := |repo.log|;
    var local := ListPaths(repo, ListFiles);
    assert |repo.log| == k + 1;
    var upstream := ListPaths(repo, ListTree(targetRef));
    files := FilesToRemove(local, upstream);
  }

  /** The distinct paths a listing answers with: `new Set((gitSafe(...) || '').split('\n').map(trim).filter(Boolean))`. */
  method ListPaths(repo: Repo, c: GitCmd) returns (paths: seq<string>)
    requires repo.Consistent() && (c.ListFiles? || c.ListTree?)
    modifies repo
    ensures repo.Consistent() && repo.head == old(repo.head)
    ensures repo.log == old(repo.log) + [RunAt(repo, |old(repo.log)|, c)]
    ensures paths == PathSet(Answer(repo.reply(|old(repo.log)|, c)))
  {
    var answer := repo.GitSafe(c);
    paths := PathSet(answer);
  }

  /**
   * `removeDeletedUpstreamFiles`: list the tracked files and the target's tree, then remove the
   * deleted files in consecutive batches of at most `BATCH_SIZE`. HEAD does not move.
   */
  method RemoveDeletedUpstreamFiles(repo: Repo, targetRef: string)
    requires repo.Consistent()
    modifies repo
    ensures repo.Consistent() && repo.head == old(repo.head)
    ensures repo.log == old(repo.log) + RemovalRuns(repo, |old(repo.log)|, targetRef)
  {
    ghost var log0 := repo.log;
    ghost var listings := [RunAt(repo, |log0|, ListFiles), RunAt(repo, |log0| + 1, ListTree(targetRef))];
    var filesToRemove := ListRemovable(repo, targetRef);
    assert repo.log == log0 + listings;
    RemoveInBatches(repo, filesToRemove);
    AppendRuns(log0, listings, BatchRuns(repo, |log0| + 2, Chunks(filesToRemove, BATCH_SIZE)));
  }

  /** `gitSafe('status --porcelain')` when `ask` holds; nothing is issued otherwise. */
  method StatusIf(repo: Repo, ask: bool) returns (status: Option<string>)
    requires repo.Consistent()
    modifies repo
    ensures repo.Consistent() && repo.head == old(repo.head)
    ensures var answer := Answer(repo.reply(|old(repo.log)|, Status));
      && status == (if ask then answer else None)
      && repo.log == old(repo.log) + (if ask then [Run(Status, answer.Some?)] else [])
  {
    status := None;
    if ask {
      status := repo.GitSafe(Status);
    }
  }

  /** `getConflictFiles`: the unmerged paths per `git diff`, or per `git status` when the diff lists none. */
  method GetConflictFiles(repo: Repo) returns (files: seq<string>)
    requires repo.Consistent()
    modifies repo
    ensures repo.Consistent() && repo.head == old(repo.head)
    ensures var p := |old(repo.log)|;
      var diff := Answer(repo.reply(p, DiffUnmerged));
      var status := Answer(repo.reply(p + 1, Status));
      && files == ConflictFilesOf(diff, status)
      && repo.log == old(repo.log) + [Run(DiffUnmerged, diff.Some?)]
           + (if DiffListsNone(diff) then [Run(Status, status.Some?)] else [])
  {
    ghost var log0 := repo.log;
    ghost var status := Answer(repo.reply(|repo.log| + 1, Status));
    var diffOutput := repo.GitSafe(DiffUnmerged);
    var ask := DiffListsNone(diffOutput);
    var statusOutput := StatusIf(repo, ask);
    ConflictFilesIgnoreStatus(diffOutput, status);
    files := ConflictFilesOf(diffOutput, statusOutput);
    AppendRuns(log0, [Run(DiffUnmerged, diffOutput.Some?)], if ask then [Run(Status, status.Some?)] else []);
  }

  /** The result of a failure that is not a conflict. */
  function ErrorResult(error: string): MergeResult {
    MergeResult(false, false, [], Some(error), None, None, None)
  }

  /**
   * The shape every merge result has: it succeeded exactly when it reports neither a conflict
   * nor an error, a conflict carries no error, and a result without a conflict lists no files.
   */
  predicate WellFormed(r: MergeResult) {
    && (r.success <==> !r.hasConflict && r.error.None?)
    && (r.hasConflict ==> r.error.None?)
    && (!r.hasConflict ==> r.conflictFiles == [])
  }

  /**
   * The regular-merge branch of the `catch`: user files are resolved with the local side, the
   * ones that fail join the theme files, and `git commit --no-edit` is issued only when nothing
   * is left in conflict.
   */
  method SettleRegular(repo: Repo, conflicts: seq<string>)
    returns (r: MergeResult, failed: seq<string>, commitOk: bool, ghost outcomes: seq<FileOutcome>)
    requires repo.Consistent()
    modifies repo
    ensures repo.Consistent()
    ensures var userFiles := UserFiles(conflicts);
      && |outcomes| == |userFiles|
      && failed == FailedFiles(userFiles, outcomes)
      && r == SettleRegularConflicts(userFiles, ThemeFiles(conflicts), failed, commitOk)
      && repo.log == old(repo.log) + ResolveLog(userFiles, outcomes)
           + (if ThemeFiles(conflicts) + failed == [] then [Run(CommitNoEdit, commitOk)] else [])
  {
    var userFiles, themeFiles := ClassifyConflicts(conflicts);
    failed, commitOk, outcomes := [], false, [];
    if userFiles != [] {
      failed, outcomes := AutoResolveUserContent(repo, userFiles);
    }
    var remaining := themeFiles + failed;
    if remaining == [] {
      var ok, _ := repo.Git(CommitNoEdit);
      commitOk := ok;
    }
    r := SettleRegularConflicts(userFiles, themeFiles, failed, commitOk);
  }

  /**
   * How the `catch` of `mergeUpstream` settles a thrown `error` when its conflict query is issued at
   * position `p`: a downgrade reports the error; otherwise the unmerged files decide: none reports
   * the error, a rebase or clean run reports them as a conflict to settle by hand, and a regular
   * merge resolves the user's own files with `--ours`, failing only on some of them.
   */
  ghost predicate SettledAt(repo: Repo, p: nat, error: string, isDowngrade: bool, rebase: bool, clean: bool, r: MergeResult) {
    if isDowngrade then r == ErrorResult(error)
    else
      var conflicts := ConflictFilesOf(Answer(repo.reply(p, DiffUnmerged)), Answer(repo.reply(p + 1, Status)));
      if conflicts == [] then r == ErrorResult(error)
      else if rebase || clean then r == MergeResult(false, true, conflicts, None, Some(rebase), None, None)
      else exists failed: seq<string>, commitOk: bool ::
        && r == SettleRegularConflicts(UserFiles(conflicts), ThemeFiles(conflicts), failed, commitOk)
        && (forall f :: f in failed ==> f in UserFiles(conflicts))
  }

  /**
   * The `catch` of `mergeUpstream`: a failed downgrade is an error; otherwise the conflict files
   * decide. A regular merge settles them as above; a rebase or clean update reports the
   * conflicts as they are; no conflict files means the original error.
   */
  method SettleFailure(repo: Repo, error: string, isDowngrade: bool, rebase: bool, clean: bool)
    returns (r: MergeResult, conflicts: seq<string>, failed: seq<string>, commitOk: bool)
    requires repo.Consistent()
    modifies repo
    ensures repo.Consistent()
    ensures IsPrefix(old(repo.log), repo.log)
    ensures WellFormed(r)
    ensures isDowngrade ==> r == ErrorResult(error) && repo.log == old(repo.log)
    ensures !isDowngrade ==> conflicts == ConflictFilesOf(
      Answer(repo.reply(|old(repo.log)|, DiffUnmerged)),
      Answer(repo.reply(|old(repo.log)| + 1, Status)))
    ensures !isDowngrade && conflicts == [] ==> r == ErrorResult(error)
    ensures !isDowngrade && conflicts != [] && (rebase || clean) ==>
      r == MergeResult(false, true, conflicts, None, Some(rebase), None, None)
    ensures !isDowngrade && conflicts != [] && !rebase && !clean ==>
      && r == SettleRegularConflicts(UserFiles(conflicts), ThemeFiles(conflicts), failed, commitOk)
      && (forall f :: f in failed ==> f in UserFiles(conflicts))
    ensures SettledAt(repo, |old(repo.log)|, error, isDowngrade, rebase, clean, r)
  {
    conflicts, failed, commitOk := [], [], false;
    if isDowngrade {
      return ErrorResult(error), conflicts, failed, commitOk;
    }
    conflicts := GetConflictFiles(repo);
    if conflicts == [] {
      return ErrorResult(error), conflicts, failed, commitOk;
    }
    if rebase || clean {
      return MergeResult(false, true, conflicts, None, Some(rebase), None, None), conflicts, failed, commitOk;
    }
    ghost var outcomes;
    r, failed, commitOk, outcomes := SettleRegular(repo, conflicts);
  }
}
