/**
 * `mergeUpstream` and `cleanRestore`: pick the strategy (rebase, downgrade by checkout, clean
 * replacement or regular merge), run its commands until one throws, and settle a throw into a
 * conflict report or an error; after a clean update, restore the user's content and amend it into
 * the merge commit, rolling HEAD back to where it was before the merge when that fails.
 */
module MergeFlow {
  import opened Wrappers
  import opened Text
  import opened UpdateTypes
  import opened Gateway
  import opened Tags
  import opened Conflicts
  import opened FetchInfo
  import opened MergeStrategies

  /** The options of `mergeUpstream`; an absent or empty tag means none was given. */
  datatype MergeOptions = MergeOptions(targetTag: Option<string>, isDowngrade: bool, rebase: bool, clean: bool)

  /** How the `try` block of a strategy ended: it returned (the clean one with its rollback anchor), or a `git` call threw. */
  datatype Attempt = Returned(preCleanSha: Option<string>) | Threw(error: string)

  /** The runs a step sequence issues and how it ends. */
  datatype Trace = Trace(runs: seq<Run>, outcome: Attempt)

  /** The normalised target tag, when one was given. */
  function NormalizedTag(targetTag: Option<string>): (t: Option<string>)
    ensures t.Some? <==> TagGiven(targetTag)
    ensures t.Some? ==> t.value == TargetRef(targetTag) && Truthy(t)
  {
    if TagGiven(targetTag) then
      var tag := NormalizeTag(targetTag.value);
      assert tag[0] == 'v';
      Some(tag)
    else None
  }

  /**
   * The version a merge message names: the target tag as it is compared, the manifest version of
   * the target with a `v` in front, and `latest` exactly when neither is known.
   */
  lemma VersionInfoNamesVersion(targetTag: Option<string>, manifest: Option<string>, read: ManifestReader)
    ensures var v := VersionInfoOf(NormalizedTag(targetTag), manifest, read);
      && (v == "latest" <==> !TagGiven(targetTag) && ManifestVersion(manifest, read).None?)
      && (v != "latest" ==> StartsWith(v, "v"))
      && (TagGiven(targetTag) ==> v == TargetRef(targetTag))
      && (!TagGiven(targetTag) && ManifestVersion(manifest, read).Some? ==> v[1..] == ManifestVersion(manifest, read).value)
  {
    var v := VersionInfoOf(NormalizedTag(targetTag), manifest, read);
    if TagGiven(targetTag) || ManifestVersion(manifest, read).Some? {
      assert StartsWith(v, "v") && v[0] != "latest"[0];
    }
  }

  /** The strategy a set of options selects, in the order the source tests them. */
  datatype Strategy = RebaseOnto | DowngradeTo(tag: string) | CleanReplace | RegularMerge

  function StrategyOf(opts: MergeOptions): (s: Strategy)
    ensures s.RebaseOnto? <==> opts.rebase
    ensures s.DowngradeTo? <==> !opts.rebase && opts.isDowngrade && TagGiven(opts.targetTag)
    ensures s.CleanReplace? <==> !opts.rebase && !(opts.isDowngrade && TagGiven(opts.targetTag)) && opts.clean
    ensures s.DowngradeTo? ==> s.tag == NormalizeTag(opts.targetTag.value)
  {
    var tag := NormalizedTag(opts.targetTag);
    if opts.rebase then RebaseOnto
    else if opts.isDowngrade && tag.Some? then DowngradeTo(tag.value)
    else if opts.clean then CleanReplace
    else RegularMerge
  }

  const DOWNGRADE_PREFIX: string := "Downgrade to "
  const CLEAN_PREFIX: string := "chore: clean update to "
  const MERGE_PREFIX: string := "chore: merge upstream theme "

  /** The commit message of a downgrade. */
  function DowngradeMessage(tag: string): string {
    DOWNGRADE_PREFIX + tag
  }

  /** The message of the `-s ours` merge that anchors a clean update. */
  function CleanMessage(version: string): string {
    CLEAN_PREFIX + version
  }

  /** The message of a regular merge. */
  function MergeMessage(version: string): string {
    MERGE_PREFIX + version
  }

  /** `(status || '').trim().length > 0`: the working tree differs from HEAD (a failed query shows nothing). */
  predicate HasChanges(status: Option<string>) {
    status.Some? && Trim(status.value) != []
  }

  /** The commands of a clean update up to the ours-merge. */
  function CleanMergeCmds(targetRef: string, versionCmds: seq<GitCmd>, version: string): seq<GitCmd> {
    [RevParseHead] + versionCmds + [MergeOurs(targetRef, CleanMessage(version))]
  }

  /** The commands of `removeDeletedUpstreamFiles`. */
  function RemovalCmds(targetRef: string, removed: seq<string>): seq<GitCmd> {
    [ListFiles, ListTree(targetRef)] + RemoveCmds(Chunks(removed, BATCH_SIZE))
  }

  /** The commands of a clean update after the ours-merge: take the tree, prune, stage, amend. */
  function ReplaceCmds(targetRef: string, removed: seq<string>): seq<GitCmd> {
    [CheckoutTree(targetRef)] + RemovalCmds(targetRef, removed) + [AddAll, CommitAmend]
  }



  /** A `git(...)` call issued at position `k`: it throws its error text when it fails. */
  function StepAt(repo: Repo, k: nat, c: GitCmd): Trace {
    var reply := repo.reply(k, c);
    Trace([Run(c, reply.ok)], if reply.ok then Returned(None) else Threw(reply.out))
  }

  /** Runs of `gitSafe(...)` calls, which never throw. */
  function Safe(runs: seq<Run>): Trace {
    Trace(runs, Returned(None))
  }

  /** `t` and then, unless `t` threw, `u`. */
  function AndThen(t: Trace, u: Trace): Trace {
    if t.outcome.Threw? then t else Trace(t.runs + u.runs, u.outcome)
  }

  /** The rebase branch from position `k`. */
  function RebaseTrace(repo: Repo, k: nat, targetRef: string): Trace {
    StepAt(repo, k, Rebase(targetRef))
  }

  /** The downgrade branch after its checkout, from position `k`: the status query, then the commit when it shows changes. */
  function ChangesTrace(repo: Repo, k: nat, tag: string): Trace {
    var status := Answer(repo.reply(k, Status));
    AndThen(Safe([RunAt(repo, k, Status)]),
      if HasChanges(status) then StepAt(repo, k + 1, Commit(DowngradeMessage(tag))) else Safe([]))
  }

  /** The downgrade branch from position `k`. */
  function DowngradeTrace(repo: Repo, k: nat, tag: string): Trace {
    AndThen(StepAt(repo, k, CheckoutTree(tag)), ChangesTrace(repo, k + 1, tag))
  }

  /** The regular branch from position `k`: the version lookup, then the merge. */
  function RegularTrace(repo: Repo, k: nat, targetRef: string, normalizedTag: Option<string>, read: ManifestReader): Trace {
    var versionRuns := VersionRuns(repo, k, targetRef, normalizedTag);
    var version := VersionAt(repo, k, targetRef, normalizedTag, read);
    AndThen(Safe(versionRuns), StepAt(repo, k + |versionRuns|, Merge(targetRef, MergeMessage(version))))
  }

  /** The first part of the clean branch from position `k`: read HEAD, look the version up, merge with `-s ours`. */
  function CleanMergeTrace(repo: Repo, k: nat, targetRef: string, normalizedTag: Option<string>, read: ManifestReader): Trace {
    AndThen(StepAt(repo, k, RevParseHead), CleanMergeTail(repo, k + 1, targetRef, normalizedTag, read))
  }

  /** The version lookup and the ours-merge of the clean branch, from position `k`. */
  function CleanMergeTail(repo: Repo, k: nat, targetRef: string, normalizedTag: Option<string>, read: ManifestReader): Trace {
    var versionRuns := VersionRuns(repo, k, targetRef, normalizedTag);
    var version := VersionAt(repo, k, targetRef, normalizedTag, read);
    AndThen(Safe(versionRuns), StepAt(repo, k + |versionRuns|, MergeOurs(targetRef, CleanMessage(version))))
  }

  /** `git add -A` then `git commit --amend --no-edit` from position `k`. */
  function AmendTrace(repo: Repo, k: nat): Trace {
    AndThen(StepAt(repo, k, AddAll), StepAt(repo, k + 1, CommitAmend))
  }

  /** `t`, started at position `k`, then staging and amending right after it. */
  function ThenAmend(repo: Repo, k: nat, t: Trace): Trace {
    AndThen(t, AmendTrace(repo, k + |t.runs|))
  }

  /**
   * The steps of a clean update that rewrite the working tree after the ours-merge, each inside
   * the next: the `git rm` batches of the files the two listings leave to delete; the listings
   * followed by those batches (`removeDeletedUpstreamFiles`); the checkout of the target's tree
   * followed by that removal; and all of it followed by staging and the amend.
   */
  datatype TreeStep = Batches(targetRef: string) | Removal(targetRef: string) | Prune(targetRef: string) | Replace(targetRef: string)

  /** How many tree steps `s` holds inside it. */
  function Depth(s: TreeStep): nat {
    match s
    case Batches(_) => 0
    case Removal(_) => 1
    case Prune(_) => 2
    case Replace(_) => 3
  }

  /**
   * The trace of tree step `s` from position `k`; for `Batches`, `k` is the position of the
   * listings, which the batches follow.
   */
  function TreeTrace(repo: Repo, k: nat, s: TreeStep): Trace
    decreases Depth(s)
  {
    match s
    case Batches(targetRef) => Safe(BatchRuns(repo, k + 2, Chunks(RemovedAt(repo, k, targetRef), BATCH_SIZE)))
    case Removal(targetRef) => AndThen(Safe(ListingRuns(repo, k, targetRef)), TreeTrace(repo, k, Batches(targetRef)))
    case Prune(targetRef) => AndThen(StepAt(repo, k, CheckoutTree(targetRef)), TreeTrace(repo, k + 1, Removal(targetRef)))
    case Replace(targetRef) => ThenAmend(repo, k, TreeTrace(repo, k, Prune(targetRef)))
  }

  /** `t`, started at position `k`, then the replacement of the tree right after it. */
  function ThenReplace(repo: Repo, k: nat, t: Trace, targetRef: string): Trace {
    AndThen(t, TreeTrace(repo, k + |t.runs|, Replace(targetRef)))
  }

  /** `t` handing back `anchor` when it returns. */
  function Anchored(t: Trace, anchor: string): Trace {
    if t.outcome.Returned? then Trace(t.runs, Returned(Some(anchor))) else t
  }

  /** The clean branch from position `k`; when it returns, it hands back `anchor`, HEAD before the merge. */
  function CleanTrace(repo: Repo, k: nat, targetRef: string, normalizedTag: Option<string>, read: ManifestReader, anchor: string): Trace {
    Anchored(ThenReplace(repo, k, CleanMergeTrace(repo, k, targetRef, normalizedTag, read), targetRef), anchor)
  }

  /**
   * The levels at which the `try` block of `mergeUpstream` is described, each defined by the
   * next: the options; the strategy they select, with the target tag; and that strategy's branch,
   * run against the target reference and the normalised tag.
   */
  datatype AttemptStep =
    | ByOptions(opts: MergeOptions)
    | ByStrategy(s: Strategy, targetTag: Option<string>)
    | ByBranch(s: Strategy, targetRef: string, normalizedTag: Option<string>)

  /** How many levels `a` holds inside it. */
  function AttemptDepth(a: AttemptStep): nat {
    match a
    case ByOptions(_) => 2
    case ByStrategy(_, _) => 1
    case ByBranch(_, _, _) => 0
  }

  /** The `try` block of `mergeUpstream` at level `a`, from position `k`, HEAD being `anchor` when it starts. */
  function AttemptAt(repo: Repo, k: nat, a: AttemptStep, read: ManifestReader, anchor: string): Trace
    decreases AttemptDepth(a)
  {
    match a
    case ByOptions(opts) => AttemptAt(repo, k, ByStrategy(StrategyOf(opts), opts.targetTag), read, anchor)
    case ByStrategy(s, tag) => AttemptAt(repo, k, ByBranch(s, TargetRef(tag), NormalizedTag(tag)), read, anchor)
    case ByBranch(s, targetRef, normalizedTag) => StrategyTrace(repo, k, s, targetRef, normalizedTag, read, anchor)
  }

  /** The `try` block of `mergeUpstream` from position `k`, HEAD being `anchor` when it starts. */
  function AttemptTrace(repo: Repo, k: nat, opts: MergeOptions, read: ManifestReader, anchor: string): Trace {
    AttemptAt(repo, k, ByOptions(opts), read, anchor)
  }

  /** The `try` block is the branch of the strategy the options select. */
  lemma AttemptBranch(repo: Repo, k: nat, opts: MergeOptions, read: ManifestReader, anchor: string)
    ensures AttemptTrace(repo, k, opts, read, anchor)
         == StrategyTrace(repo, k, StrategyOf(opts), TargetRef(opts.targetTag), NormalizedTag(opts.targetTag), read, anchor)
  {
    var s := StrategyOf(opts);
    assert AttemptTrace(repo, k, opts, read, anchor) == AttemptAt(repo, k, ByStrategy(s, opts.targetTag), read, anchor);
    assert AttemptAt(repo, k, ByStrategy(s, opts.targetTag), read, anchor)
        == AttemptAt(repo, k, ByBranch(s, TargetRef(opts.targetTag), NormalizedTag(opts.targetTag)), read, anchor);
  }

  /** The branch of strategy `s` from position `k`. */
  function StrategyTrace(repo: Repo, k: nat, s: Strategy, targetRef: string, normalizedTag: Option<string>, read: ManifestReader, anchor: string): Trace {
    match s
    case RebaseOnto => RebaseTrace(repo, k, targetRef)
    case DowngradeTo(tag) => DowngradeTrace(repo, k, tag)
    case CleanReplace => CleanTrace(repo, k, targetRef, normalizedTag, read, anchor)
    case RegularMerge => RegularTrace(repo, k, targetRef, normalizedTag, read)
  }

  /**
   * Running `t` and then, unless it threw, `u` appends the runs of their sequence and ends as it
   * does.
   */
  lemma Sequenced(log0: seq<Run>, t: Trace, u: Trace, log: seq<Run>, a: Attempt)
    requires t.outcome.Threw? ==> log == log0 + t.runs && a == t.outcome
    requires t.outcome.Returned? ==> log == log0 + t.runs + u.runs && a == u.outcome
    ensures log == log0 + AndThen(t, u).runs && a == AndThen(t, u).outcome
  {
  }

  /** A `git(...)` call whose failure ends the attempt with its error text. */
  method Throwing(repo: Repo, c: GitCmd) returns (a: Attempt)
    requires repo.Consistent() && !c.RevParseHead?
    modifies repo
    ensures repo.Consistent()
    ensures var t := StepAt(repo, |old(repo.log)|, c);
      repo.log == old(repo.log) + t.runs && a == t.outcome
    ensures repo.head == NextHead(c, repo.reply(|old(repo.log)|, c).ok, old(repo.head), repo.newCommit(|old(repo.log)|))
  {
    var ok, out := repo.Git(c);
    a := if ok then Returned(None) else Threw(out);
  }

  /** `git rebase <targetRef>`. */
  method RebaseAttempt(repo: Repo, targetRef: string) returns (a: Attempt)
    requires repo.Consistent()
    modifies repo
    ensures repo.Consistent()
    ensures var t := RebaseTrace(repo, |old(repo.log)|, targetRef);
      repo.log == old(repo.log) + t.runs && a == t.outcome
  {
    a := Throwing(repo, Rebase(targetRef));
  }

  /** `git commit -m "Downgrade to <tag>"`, issued only when `changed` holds. */
  method CommitIf(repo: Repo, changed: bool, tag: string) returns (a: Attempt)
    requires repo.Consistent()
    modifies repo
    ensures repo.Consistent()
    ensures var t := if changed then StepAt(repo, |old(repo.log)|, Commit(DowngradeMessage(tag))) else Safe([]);
      repo.log == old(repo.log) + t.runs && a == t.outcome
  {
    a := Returned(None);
    if changed {
      a := Throwing(repo, Commit(DowngradeMessage(tag)));
    }
  }

  /** After the checkout of a downgrade: read the status, and commit when it shows changes. */
  method CommitChanges(repo: Repo, tag: string) returns (a: Attempt)
    requires repo.Consistent()
    modifies repo
    ensures repo.Consistent()
    ensures var t := ChangesTrace(repo, |old(repo.log)|, tag);
      repo.log == old(repo.log) + t.runs && a == t.outcome
  {
    ghost var log0 := repo.log;
    ghost var t := Safe([RunAt(repo, |log0|, Status)]);
    var status := repo.GitSafe(Status);
    var changed := HasChanges(status);
    ghost var u := if changed then StepAt(repo, |log0| + 1, Commit(DowngradeMessage(tag))) else Safe([]);
    a := CommitIf(repo, changed, tag);
    Sequenced(log0, t, u, repo.log, a);
  }

  /**
   * The downgrade branch: `git checkout <tag> -- .`, then a commit only when the status shows
   * changes, so a checkout that changes nothing leaves HEAD where it is.
   */
  method DowngradeAttempt(repo: Repo, tag: string) returns (a: Attempt)
    requires repo.Consistent()
    modifies repo
    ensures repo.Consistent()
    ensures var t := DowngradeTrace(repo, |old(repo.log)|, tag);
      repo.log == old(repo.log) + t.runs && a == t.outcome
  {
    ghost var log0 := repo.log;
    ghost var t := StepAt(repo, |log0|, CheckoutTree(tag));
    ghost var u := ChangesTrace(repo, |log0| + 1, tag);
    a := Throwing(repo, CheckoutTree(tag));
    if a.Returned? {
      a := CommitChanges(repo, tag);
    }
    Sequenced(log0, t, u, repo.log, a);
  }

  /** The regular branch: `git merge --no-ff` with the version in its message. */
  method RegularAttempt(repo: Repo, targetRef: string, normalizedTag: Option<string>, read: ManifestReader) returns (a: Attempt)
    requires repo.Consistent()
    modifies repo
    ensures repo.Consistent()
    ensures var t := RegularTrace(repo, |old(repo.log)|, targetRef, normalizedTag, read);
      repo.log == old(repo.log) + t.runs && a == t.outcome
  {
    ghost var log0 := repo.log;
    ghost var t := Safe(VersionRuns(repo, |log0|, targetRef, normalizedTag));
    var version := VersionInfo(repo, targetRef, normalizedTag, read);
    ghost var u := StepAt(repo, |repo.log|, Merge(targetRef, MergeMessage(version)));
    a := Throwing(repo, Merge(targetRef, MergeMessage(version)));
    Sequenced(log0, t, u, repo.log, a);
  }

  /** The version lookup and the ours-merge of the clean branch. */
  method MergeOursAttempt(repo: Repo, targetRef: string, normalizedTag: Option<string>, read: ManifestReader) returns (a: Attempt)
    requires repo.Consistent()
    modifies repo
    ensures repo.Consistent()
    ensures var t := CleanMergeTail(repo, |old(repo.log)|, targetRef, normalizedTag, read);
      repo.log == old(repo.log) + t.runs && a == t.outcome
  {
    ghost var log0 := repo.log;
    ghost var t := Safe(VersionRuns(repo, |log0|, targetRef, normalizedTag));
    var version := VersionInfo(repo, targetRef, normalizedTag, read);
    ghost var u := StepAt(repo, |repo.log|, MergeOurs(targetRef, CleanMessage(version)));
    a := Throwing(repo, MergeOurs(targetRef, CleanMessage(version)));
    Sequenced(log0, t, u, repo.log, a);
  }

  /**
   * The first part of the clean branch: read HEAD as the rollback anchor, then record the merge
   * with `-s ours` and the version in its message.
   */
  method CleanMerge(repo: Repo, targetRef: string, normalizedTag: Option<string>, read: ManifestReader)
    returns (a: Attempt, sha: string)
    requires repo.Consistent()
    modifies repo
    ensures repo.Consistent()
    ensures var t := CleanMergeTrace(repo, |old(repo.log)|, targetRef, normalizedTag, read);
      repo.log == old(repo.log) + t.runs && a == t.outcome
    ensures a.Returned? ==> sha == old(repo.head).sha
  {
    ghost var log0 := repo.log;
    ghost var t := StepAt(repo, |log0|, RevParseHead);
    ghost var u := CleanMergeTail(repo, |log0| + 1, targetRef, normalizedTag, read);
    var ok;
    ok, sha := repo.Git(RevParseHead);
    a := if ok then Returned(None) else Threw(sha);
    if ok {
      a := MergeOursAttempt(repo, targetRef, normalizedTag, read);
    }
    Sequenced(log0, t, u, repo.log, a);
  }

  /** `git checkout <ref> -- .` and, when it succeeds, the pruning of upstream deletions. */
  method PruneTree(repo: Repo, targetRef: string) returns (a: Attempt)
    requires repo.Consistent()
    modifies repo
    ensures repo.Consistent()
    ensures var t := TreeTrace(repo, |old(repo.log)|, Prune(targetRef));
      repo.log == old(repo.log) + t.runs && a == t.outcome
  {
    ghost var log0 := repo.log;
    ghost var t := StepAt(repo, |log0|, CheckoutTree(targetRef));
    ghost var u := Safe(RemovalRuns(repo, |log0| + 1, targetRef));
    PruneUnfold(repo, |log0|, targetRef);
    a := Throwing(repo, CheckoutTree(targetRef));
    assert repo.log == log0 + t.runs && |repo.log| == |log0| + 1;
    if a.Returned? {
      RemoveDeletedUpstreamFiles(repo, targetRef);
    }
    Sequenced(log0, t, u, repo.log, a);
  }

  /** Pruning is the checkout of the tree followed, unless it throws, by the removal runs. */
  lemma PruneUnfold(repo: Repo, k: nat, targetRef: string)
    ensures TreeTrace(repo, k, Prune(targetRef))
      == AndThen(StepAt(repo, k, CheckoutTree(targetRef)), Safe(RemovalRuns(repo, k + 1, targetRef)))
  {
    RemovalTrace(repo, k + 1, targetRef);
  }

  /** `git add -A` and, when it succeeds, `git commit --amend --no-edit`, which moves HEAD. */
  method StageAndAmend(repo: Repo) returns (a: Attempt)
    requires repo.Consistent()
    modifies repo
    ensures repo.Consistent()
    ensures var t := AmendTrace(repo, |old(repo.log)|);
      repo.log == old(repo.log) + t.runs && a == t.outcome
    ensures a.Returned? ==> repo.head == repo.newCommit(|repo.log| - 1)
    ensures a.Threw? ==> repo.head == old(repo.head)
  {
    ghost var log0 := repo.log;
    ghost var t := StepAt(repo, |log0|, AddAll);
    ghost var u := StepAt(repo, |log0| + 1, CommitAmend);
    a := Throwing(repo, AddAll);
    if a.Returned? {
      a := Throwing(repo, CommitAmend);
    }
    Sequenced(log0, t, u, repo.log, a);
  }

  /** The replacement of the tree after the ours-merge; when it returns, HEAD is the amended commit. */
  method ReplaceTree(repo: Repo, targetRef: string) returns (a: Attempt)
    requires repo.Consistent()
    modifies repo
    ensures repo.Consistent()
    ensures var t := TreeTrace(repo, |old(repo.log)|, Replace(targetRef));
      repo.log == old(repo.log) + t.runs && a == t.outcome
    ensures a.Returned? ==> repo.head == repo.newCommit(|repo.log| - 1)
  {
    ghost var log0 := repo.log;
    ghost var t := TreeTrace(repo, |log0|, Prune(targetRef));
    a := PruneTree(repo, targetRef);
    assert |repo.log| == |log0| + |t.runs|;
    ghost var u := AmendTrace(repo, |log0| + |t.runs|);
    if a.Returned? {
      a := StageAndAmend(repo);
    }
    Sequenced(log0, t, u, repo.log, a);
  }

  /**
   * The clean branch: the ours-merge and then the replacement of the tree. The rollback anchor,
   * HEAD as it was before the merge, is handed back only when every step succeeded, and HEAD is
   * then the amended merge commit.
   */
  method CleanAttempt(repo: Repo, targetRef: string, normalizedTag: Option<string>, read: ManifestReader) returns (a: Attempt)
    requires repo.Consistent()
    modifies repo
    ensures repo.Consistent()
    ensures var t := CleanTrace(repo, |old(repo.log)|, targetRef, normalizedTag, read, old(repo.head).sha);
      repo.log == old(repo.log) + t.runs && a == t.outcome
    ensures a.Returned? ==> repo.head == repo.newCommit(|repo.log| - 1)
  {
    ghost var log0 := repo.log;
    ghost var t := CleanMergeTrace(repo, |log0|, targetRef, normalizedTag, read);
    var sha;
    a, sha := CleanMerge(repo, targetRef, normalizedTag, read);
    assert |repo.log| == |log0| + |t.runs|;
    ghost var u := TreeTrace(repo, |log0| + |t.runs|, Replace(targetRef));
    if a.Returned? {
      a := ReplaceTree(repo, targetRef);
    }
    Sequenced(log0, t, u, repo.log, a);
    if a.Returned? {
      a := Returned(Some(sha));
    }
  }

  /** The `try` block of `mergeUpstream`: the branch of the strategy the options select. */
  method RunAttempt(repo: Repo, opts: MergeOptions, read: ManifestReader) returns (a: Attempt)
    requires repo.Consistent()
    modifies repo
    ensures repo.Consistent()
    ensures var t := AttemptTrace(repo, |old(repo.log)|, opts, read, old(repo.head).sha);
      repo.log == old(repo.log) + t.runs && a == t.outcome
    ensures StrategyOf(opts).CleanReplace? && a.Returned? ==> |repo.log| > 0 && repo.head == repo.newCommit(|repo.log| - 1)
  {
    AttemptBranch(repo, |repo.log|, opts, read, repo.head.sha);
    var targetRef, normalizedTag := TargetRef(opts.targetTag), NormalizedTag(opts.targetTag);
    match StrategyOf(opts)
    case RebaseOnto => a := RebaseAttempt(repo, targetRef);
    case DowngradeTo(tag) => a := DowngradeAttempt(repo, tag);
    case CleanReplace => a := CleanAttempt(repo, targetRef, normalizedTag, read);
    case RegularMerge => a := RegularAttempt(repo, targetRef, normalizedTag, read);
  }

  /** The result of a strategy that returned: the clean one carries its rollback anchor. */
  function Succeeded(preCleanSha: Option<string>): (r: MergeResult)
    ensures WellFormed(r) && r.success
  {
    MergeResult(true, false, [], None, None, None, preCleanSha)
  }


  /**
   * `mergeUpstream`: run the strategy the options select. One that returns is a success, the
   * clean one with HEAD before the merge as its rollback anchor; a throw goes to the `catch`,
   * which reports the thrown error or the conflicts.
   */
  method MergeUpstream(repo: Repo, opts: MergeOptions, read: ManifestReader) returns (r: MergeResult)
    requires repo.Consistent()
    modifies repo
    ensures repo.Consistent()
    ensures WellFormed(r)
    ensures var t := AttemptTrace(repo, |old(repo.log)|, opts, read, old(repo.head).sha);
      && IsPrefix(old(repo.log) + t.runs, repo.log)
      && (t.outcome.Returned? ==> repo.log == old(repo.log) + t.runs && r == Succeeded(t.outcome.preCleanSha))
      && (t.outcome.Threw? ==> !r.success || r.autoResolvedFiles.Some?)
      && (t.outcome.Threw? && r.error.Some? ==> r.error == Some(t.outcome.error))
      && (t.outcome.Threw? && opts.isDowngrade ==> r == ErrorResult(t.outcome.error))
      && (t.outcome.Threw? ==> SettledAt(repo, |old(repo.log)| + |t.runs|, t.outcome.error, opts.isDowngrade, opts.rebase, opts.clean, r))
    ensures r.preCleanSha.Some? ==>
      && StrategyOf(opts).CleanReplace?
      && r.preCleanSha.value == old(repo.head).sha
      && |repo.log| > 0 && repo.head == repo.newCommit(|repo.log| - 1)
    ensures opts.isDowngrade ==> !r.hasConflict
  {
    ghost var log0 := repo.log;
    AttemptAnchor(repo, |log0|, opts, read, repo.head.sha);
    var a := RunAttempt(repo, opts, read);
    if a.Returned? {
      r := Succeeded(a.preCleanSha);
    } else {
      var conflicts, failed, commitOk;
      r, conflicts, failed, commitOk := SettleFailure(repo, a.error, opts.isDowngrade, opts.rebase, opts.clean);
    }
  }

  /** The commands of `cleanRestore`'s `try` block from position `k`: nothing when the restore threw, else staging and the amend. */
  function RestoreTrace(repo: Repo, k: nat, restored: Result<seq<string>, string>): Trace {
    if restored.Err? then Trace([], Threw(restored.error)) else AmendTrace(repo, k)
  }

  /** The rollback issued at position `k` after a failed restore: a hard reset to the anchor, when there is one. */
  function RollbackRuns(repo: Repo, k: nat, preCleanSha: Option<string>): seq<Run> {
    if Truthy(preCleanSha) then [RunAt(repo, k, ResetHard(preCleanSha.value))] else []
  }

  /** `gitSafe('reset --hard <preCleanSha>')` when an anchor was given; a successful reset puts HEAD back on it. */
  method Rollback(repo: Repo, preCleanSha: Option<string>)
    requires repo.Consistent()
    modifies repo
    ensures repo.Consistent()
    ensures repo.log == old(repo.log) + RollbackRuns(repo, |old(repo.log)|, preCleanSha)
    ensures repo.head == if Truthy(preCleanSha) && repo.reply(|old(repo.log)|, ResetHard(preCleanSha.value)).ok
      then CommitId(preCleanSha.value) else old(repo.head)
  {
    if Truthy(preCleanSha) {
      var _ := repo.GitSafe(ResetHard(preCleanSha.value));
    }
  }

  /**
   * `cleanRestore`: after the user's content was restored from the backup (`restored`, the
   * restored paths or the error the restore threw), stage everything and amend the merge commit.
   * When any of it throws, HEAD is reset to the rollback anchor, if there is one, and the error
   * is passed on; otherwise the restored paths are returned and HEAD is the amended commit.
   */
  method CleanRestore(repo: Repo, restored: Result<seq<string>, string>, preCleanSha: Option<string>)
    returns (r: Result<seq<string>, string>)
    requires repo.Consistent()
    modifies repo
    ensures repo.Consistent()
    ensures var t := RestoreTrace(repo, |old(repo.log)|, restored);
      && (t.outcome.Returned? ==>
            && restored.Ok? && r == Ok(restored.value)
            && repo.log == old(repo.log) + t.runs
            && repo.head == repo.newCommit(|repo.log| - 1))
      && (t.outcome.Threw? ==>
            && r == Err(t.outcome.error)
            && repo.log == old(repo.log) + t.runs + RollbackRuns(repo, |old(repo.log)| + |t.runs|, preCleanSha))
    ensures r.Err? && Truthy(preCleanSha) && repo.reply(|repo.log| - 1, ResetHard(preCleanSha.value)).ok ==>
      repo.head == CommitId(preCleanSha.value)
    ensures r.Err? && !Truthy(preCleanSha) ==> repo.head == old(repo.head)
  {
    var a := Threw(if restored.Err? then restored.error else "");
    if restored.Ok? {
      a := StageAndAmend(repo);
    }
    if a.Returned? {
      return Ok(restored.value);
    }
    r := Err(a.error);
    Rollback(repo, preCleanSha);
  }

  /*
   * What a trace promises. The commands it issues are a prefix of its plan, all of it when it
   * returns; when it throws, the last command it issued failed and the error is that command's.
   */

  /** The commands of `t` are a prefix of `plan`, and all of it when `t` returned. */
  predicate Follows(t: Trace, plan: seq<GitCmd>) {
    IsPrefix(Cmds(t.runs), plan) && (t.outcome.Returned? ==> Cmds(t.runs) == plan)
  }

  /** A throw comes from the last run of `t`, issued at position `k + |t.runs| - 1`: it failed and its error text is the outcome's. */
  predicate ThrowsAtLast(repo: Repo, k: nat, t: Trace) {
    t.outcome.Threw? ==>
      && t.runs != []
      && var last := t.runs[|t.runs| - 1];
      && !last.ok
      && t.outcome.error == repo.reply(k + |t.runs| - 1, last.cmd).out
  }

  /** A trace that keeps to `plan` and throws, if at all, at its last run, the trace starting at position `k`. */
  predicate Sound(repo: Repo, k: nat, t: Trace, plan: seq<GitCmd>) {
    Follows(t, plan) && ThrowsAtLast(repo, k, t)
  }

  /** Sequencing keeps to the concatenated plan. */
  lemma AndThenFollows(t: Trace, p: seq<GitCmd>, u: Trace, q: seq<GitCmd>)
    requires Follows(t, p) && Follows(u, q)
    ensures Follows(AndThen(t, u), p + q)
  {
    if t.outcome.Threw? {
      PrefixExtends(Cmds(t.runs), p, q);
    } else {
      CmdsAppend(t.runs, u.runs);
      PrefixAfter(p, Cmds(u.runs), q);
    }
  }

  /** Sequencing keeps the throw at the last run, when the second part starts right after the first. */
  lemma AndThenThrows(repo: Repo, k: nat, t: Trace, u: Trace)
    requires ThrowsAtLast(repo, k, t) && ThrowsAtLast(repo, k + |t.runs|, u)
    ensures ThrowsAtLast(repo, k, AndThen(t, u))
  {
    if t.outcome.Returned? && u.outcome.Threw? {
      assert (t.runs + u.runs)[|t.runs + u.runs| - 1] == u.runs[|u.runs| - 1];
    }
  }

  /** Two sound traces, the second starting where the first ends, make a sound one. */
  lemma AndThenSound(repo: Repo, k: nat, t: Trace, p: seq<GitCmd>, u: Trace, q: seq<GitCmd>)
    requires Sound(repo, k, t, p) && Sound(repo, k + |t.runs|, u, q)
    ensures Sound(repo, k, AndThen(t, u), p + q)
  {
    AndThenFollows(t, p, u, q);
    AndThenThrows(repo, k, t, u);
  }

  /** A `git(...)` call keeps to its one command and throws at it. */
  lemma StepSound(repo: Repo, k: nat, c: GitCmd)
    ensures Sound(repo, k, StepAt(repo, k, c), [c])
  {
    assert Cmds([Run(c, repo.reply(k, c).ok)]) == [c];
  }

  /** `gitSafe(...)` calls keep to their commands and never throw. */
  lemma SafeSound(repo: Repo, k: nat, runs: seq<Run>)
    ensures Sound(repo, k, Safe(runs), Cmds(runs))
  {
  }

  /** The commit of a downgrade, issued only when the status issued at position `k` shows changes. */
  function CommitCmds(repo: Repo, k: nat, tag: string): seq<GitCmd> {
    if HasChanges(Answer(repo.reply(k, Status))) then [Commit(DowngradeMessage(tag))] else []
  }

  /** After the checkout of a downgrade: the status query, and the commit only when it shows changes. */
  lemma ChangesSound(repo: Repo, k: nat, tag: string)
    ensures Sound(repo, k, ChangesTrace(repo, k, tag), [Status] + CommitCmds(repo, k, tag))
  {
    var status := Safe([RunAt(repo, k, Status)]);
    assert Cmds(status.runs) == [Status];
    SafeSound(repo, k, status.runs);
    var rest := if HasChanges(Answer(repo.reply(k, Status))) then StepAt(repo, k + 1, Commit(DowngradeMessage(tag))) else Safe([]);
    if HasChanges(Answer(repo.reply(k, Status))) {
      StepSound(repo, k + 1, Commit(DowngradeMessage(tag)));
    } else {
      SafeSound(repo, k + 1, []);
    }
    AndThenSound(repo, k, status, [Status], rest, CommitCmds(repo, k, tag));
  }

  /**
   * The downgrade branch issues the checkout, the status query and, only when the status shows
   * changes, the commit; a throw is the failed checkout's or the failed commit's.
   */
  lemma DowngradeSound(repo: Repo, k: nat, tag: string)
    ensures Sound(repo, k, DowngradeTrace(repo, k, tag), [CheckoutTree(tag), Status] + CommitCmds(repo, k + 1, tag))
  {
    StepSound(repo, k, CheckoutTree(tag));
    ChangesSound(repo, k + 1, tag);
    AndThenSound(repo, k, StepAt(repo, k, CheckoutTree(tag)), [CheckoutTree(tag)], ChangesTrace(repo, k + 1, tag), [Status] + CommitCmds(repo, k + 1, tag));
    assert [CheckoutTree(tag)] + ([Status] + CommitCmds(repo, k + 1, tag)) == [CheckoutTree(tag), Status] + CommitCmds(repo, k + 1, tag);
  }

  /** The regular branch issues the version lookup and then the merge, whose message carries the version. */
  lemma RegularSound(repo: Repo, k: nat, targetRef: string, normalizedTag: Option<string>, read: ManifestReader)
    ensures Sound(repo, k, RegularTrace(repo, k, targetRef, normalizedTag, read),
      VersionCmds(targetRef, normalizedTag) + [Merge(targetRef, MergeMessage(VersionAt(repo, k, targetRef, normalizedTag, read)))])
  {
    var versionRuns := VersionRuns(repo, k, targetRef, normalizedTag);
    var merge := Merge(targetRef, MergeMessage(VersionAt(repo, k, targetRef, normalizedTag, read)));
    SafeSound(repo, k, versionRuns);
    StepSound(repo, k + |versionRuns|, merge);
    AndThenSound(repo, k, Safe(versionRuns), VersionCmds(targetRef, normalizedTag), StepAt(repo, k + |versionRuns|, merge), [merge]);
  }

  /** The first part of the clean branch issues `rev-parse HEAD`, the version lookup and the ours-merge. */
  lemma CleanMergeSound(repo: Repo, k: nat, targetRef: string, normalizedTag: Option<string>, read: ManifestReader)
    ensures Sound(repo, k, CleanMergeTrace(repo, k, targetRef, normalizedTag, read),
      CleanMergeCmds(targetRef, VersionCmds(targetRef, normalizedTag), VersionAt(repo, k + 1, targetRef, normalizedTag, read)))
  {
    var versionRuns := VersionRuns(repo, k + 1, targetRef, normalizedTag);
    var merge := MergeOurs(targetRef, CleanMessage(VersionAt(repo, k + 1, targetRef, normalizedTag, read)));
    var vcmds := VersionCmds(targetRef, normalizedTag);
    var tail := AndThen(Safe(versionRuns), StepAt(repo, k + 1 + |versionRuns|, merge));
    SafeSound(repo, k + 1, versionRuns);
    StepSound(repo, k + 1 + |versionRuns|, merge);
    AndThenSound(repo, k + 1, Safe(versionRuns), vcmds, StepAt(repo, k + 1 + |versionRuns|, merge), [merge]);
    StepSound(repo, k, RevParseHead);
    AndThenSound(repo, k, StepAt(repo, k, RevParseHead), [RevParseHead], tail, vcmds + [merge]);
    assert [RevParseHead] + (vcmds + [merge]) == [RevParseHead] + vcmds + [merge];
  }

  /** Staging and amending after a sound trace: `git add -A`, then the amend, unless the trace threw. */
  lemma ThenAmendSound(repo: Repo, k: nat, t: Trace, p: seq<GitCmd>)
    requires Sound(repo, k, t, p)
    ensures Sound(repo, k, ThenAmend(repo, k, t), p + [AddAll, CommitAmend])
  {
    var j := k + |t.runs|;
    StepSound(repo, j, AddAll);
    StepSound(repo, j + 1, CommitAmend);
    AndThenSound(repo, j, StepAt(repo, j, AddAll), [AddAll], StepAt(repo, j + 1, CommitAmend), [CommitAmend]);
    AndThenSound(repo, k, t, p, AmendTrace(repo, j), [AddAll, CommitAmend]);
  }

  /** The commands tree step `s` from position `k` plans; for `Batches`, `k` is the position of the listings. */
  function TreeCmds(repo: Repo, k: nat, s: TreeStep): seq<GitCmd>
    decreases Depth(s)
  {
    match s
    case Batches(targetRef) => RemoveCmds(Chunks(RemovedAt(repo, k, targetRef), BATCH_SIZE))
    case Removal(targetRef) => [ListFiles, ListTree(targetRef)] + TreeCmds(repo, k, Batches(targetRef))
    case Prune(targetRef) => [CheckoutTree(targetRef)] + TreeCmds(repo, k + 1, Removal(targetRef))
    case Replace(targetRef) => TreeCmds(repo, k, Prune(targetRef)) + [AddAll, CommitAmend]
  }

  /** The removal step is `removeDeletedUpstreamFiles`, whose calls never throw. */
  lemma RemovalTrace(repo: Repo, k: nat, targetRef: string)
    ensures TreeTrace(repo, k, Removal(targetRef)) == Safe(RemovalRuns(repo, k, targetRef))
  {
  }

  /** The `git rm` batches keep to their plan and never throw, wherever they are issued. */
  lemma BatchesSound(repo: Repo, j: nat, k: nat, targetRef: string)
    ensures Sound(repo, j, TreeTrace(repo, k, Batches(targetRef)), TreeCmds(repo, k, Batches(targetRef)))
  {
    var batches := Chunks(RemovedAt(repo, k, targetRef), BATCH_SIZE);
    BatchRunsCmds(repo, k + 2, batches);
    SafeSound(repo, j, BatchRuns(repo, k + 2, batches));
  }

  /** Every tree step keeps to its plan, and a throw comes from its last command, which failed. */
  lemma {:induction false} TreeSound(repo: Repo, k: nat, s: TreeStep)
    ensures Sound(repo, k, TreeTrace(repo, k, s), TreeCmds(repo, k, s))
    decreases Depth(s)
  {
    match s
    case Batches(targetRef) =>
      BatchesSound(repo, k, k, targetRef);
    case Removal(targetRef) =>
      var listings := ListingRuns(repo, k, targetRef);
      ListingCmds(repo, k, targetRef);
      SafeSound(repo, k, listings);
      BatchesSound(repo, k + 2, k, targetRef);
      AndThenSound(repo, k, Safe(listings), [ListFiles, ListTree(targetRef)],
        TreeTrace(repo, k, Batches(targetRef)), TreeCmds(repo, k, Batches(targetRef)));
    case Prune(targetRef) =>
      StepSound(repo, k, CheckoutTree(targetRef));
      TreeSound(repo, k + 1, Removal(targetRef));
      AndThenSound(repo, k, StepAt(repo, k, CheckoutTree(targetRef)), [CheckoutTree(targetRef)],
        TreeTrace(repo, k + 1, Removal(targetRef)), TreeCmds(repo, k + 1, Removal(targetRef)));
    case Replace(targetRef) =>
      TreeSound(repo, k, Prune(targetRef));
      ThenAmendSound(repo, k, TreeTrace(repo, k, Prune(targetRef)), TreeCmds(repo, k, Prune(targetRef)));
  }

  /**
   * Spelled out, the replacement from position `k` plans the checkout of the target's tree, the
   * two listings, one `git rm` per batch of the files they leave to delete, `git add -A` and the
   * amend.
   */
  lemma ReplacePlan(repo: Repo, k: nat, targetRef: string)
    ensures TreeCmds(repo, k, Replace(targetRef)) == ReplaceCmds(targetRef, RemovedAt(repo, k + 1, targetRef))
  {
    var batches := TreeCmds(repo, k + 1, Batches(targetRef));
    assert TreeCmds(repo, k + 1, Removal(targetRef)) == [ListFiles, ListTree(targetRef)] + batches;
    assert batches == RemoveCmds(Chunks(RemovedAt(repo, k + 1, targetRef), BATCH_SIZE));
  }

  /** The replacement after a sound trace keeps to the concatenated plan. */
  lemma ThenReplaceSound(repo: Repo, k: nat, t: Trace, p: seq<GitCmd>, targetRef: string)
    requires Sound(repo, k, t, p)
    ensures Sound(repo, k, ThenReplace(repo, k, t, targetRef), p + TreeCmds(repo, k + |t.runs|, Replace(targetRef)))
  {
    TreeSound(repo, k + |t.runs|, Replace(targetRef));
    AndThenSound(repo, k, t, p, TreeTrace(repo, k + |t.runs|, Replace(targetRef)), TreeCmds(repo, k + |t.runs|, Replace(targetRef)));
  }

  /** Handing back an anchor changes neither the runs nor a throw. */
  lemma AnchoredSound(repo: Repo, k: nat, t: Trace, p: seq<GitCmd>, anchor: string)
    requires Sound(repo, k, t, p)
    ensures Sound(repo, k, Anchored(t, anchor), p)
  {
  }

  /** The position of the replacement in a clean update that starts at `k`. */
  function ReplaceStart(repo: Repo, k: nat, targetRef: string, normalizedTag: Option<string>, read: ManifestReader): nat {
    k + |CleanMergeTrace(repo, k, targetRef, normalizedTag, read).runs|
  }

  /**
   * The clean branch issues `rev-parse HEAD`, the version lookup, the ours-merge with the version
   * in its message and then the replacement of the tree (see `ReplacePlan`), stopping at the
   * first `git(...)` call that throws.
   */
  lemma CleanSound(repo: Repo, k: nat, targetRef: string, normalizedTag: Option<string>, read: ManifestReader, anchor: string)
    ensures Sound(repo, k, CleanTrace(repo, k, targetRef, normalizedTag, read, anchor),
      CleanMergeCmds(targetRef, VersionCmds(targetRef, normalizedTag), VersionAt(repo, k + 1, targetRef, normalizedTag, read))
        + TreeCmds(repo, ReplaceStart(repo, k, targetRef, normalizedTag, read), Replace(targetRef)))
  {
    var merge := CleanMergeTrace(repo, k, targetRef, normalizedTag, read);
    var mergeCmds := CleanMergeCmds(targetRef, VersionCmds(targetRef, normalizedTag), VersionAt(repo, k + 1, targetRef, normalizedTag, read));
    CleanMergeSound(repo, k, targetRef, normalizedTag, read);
    ThenReplaceSound(repo, k, merge, mergeCmds, targetRef);
    AnchoredSound(repo, k, ThenReplace(repo, k, merge, targetRef), mergeCmds + TreeCmds(repo, k + |merge.runs|, Replace(targetRef)), anchor);
  }

  /** A returning sequence ends with the last run of its second part. */
  lemma AndThenLast(t: Trace, u: Trace, last: Run)
    requires u.outcome.Returned? ==> u.runs != [] && u.runs[|u.runs| - 1] == last
    ensures var v := AndThen(t, u);
      v.outcome.Returned? ==> v.runs != [] && v.runs[|v.runs| - 1] == last
  {
    if t.outcome.Returned? && u.outcome.Returned? {
      assert (t.runs + u.runs)[|t.runs + u.runs| - 1] == u.runs[|u.runs| - 1];
    }
  }

  /** When staging and amending after `t` returns, its last command is a successful amend. */
  lemma ThenAmendEndsWithAmend(repo: Repo, k: nat, t: Trace)
    ensures var u := ThenAmend(repo, k, t);
      u.outcome.Returned? ==> u.runs != [] && u.runs[|u.runs| - 1] == Run(CommitAmend, true)
  {
    AndThenLast(t, AmendTrace(repo, k + |t.runs|), Run(CommitAmend, true));
  }

  /** When the replacement after `t` returns, its last command is a successful amend. */
  lemma ThenReplaceEndsWithAmend(repo: Repo, k: nat, t: Trace, targetRef: string)
    ensures var u := ThenReplace(repo, k, t, targetRef);
      u.outcome.Returned? ==> u.runs != [] && u.runs[|u.runs| - 1] == Run(CommitAmend, true)
  {
    var j := k + |t.runs|;
    ThenAmendEndsWithAmend(repo, j, TreeTrace(repo, j, Prune(targetRef)));
    AndThenLast(t, TreeTrace(repo, j, Replace(targetRef)), Run(CommitAmend, true));
  }

  /** When the clean branch returns, it hands back the anchor and its last command is a successful amend. */
  lemma CleanReturnsAnchor(repo: Repo, k: nat, targetRef: string, normalizedTag: Option<string>, read: ManifestReader, anchor: string)
    ensures var t := CleanTrace(repo, k, targetRef, normalizedTag, read, anchor);
      t.outcome.Returned? ==> t.outcome.preCleanSha == Some(anchor) && t.runs != [] && t.runs[|t.runs| - 1] == Run(CommitAmend, true)
  {
    ThenReplaceEndsWithAmend(repo, k, CleanMergeTrace(repo, k, targetRef, normalizedTag, read), targetRef);
  }

  /** Whatever the strategy, a throw comes from the last command issued, which failed. */
  lemma AttemptThrowsAtLast(repo: Repo, k: nat, opts: MergeOptions, read: ManifestReader, anchor: string)
    ensures ThrowsAtLast(repo, k, AttemptTrace(repo, k, opts, read, anchor))
  {
    AttemptBranch(repo, k, opts, read, anchor);
    var tag := NormalizedTag(opts.targetTag);
    var targetRef := TargetRef(opts.targetTag);
    match StrategyOf(opts)
    case RebaseOnto => StepSound(repo, k, Rebase(targetRef));
    case DowngradeTo(t) => DowngradeSound(repo, k, t);
    case CleanReplace => CleanSound(repo, k, targetRef, tag, read, anchor);
    case RegularMerge => RegularSound(repo, k, targetRef, tag, read);
  }

  /** A trace that hands back no anchor when it returns. */
  predicate NoAnchor(t: Trace) {
    t.outcome.Returned? ==> t.outcome.preCleanSha.None?
  }

  lemma AndThenNoAnchor(t: Trace, u: Trace)
    requires NoAnchor(t) && NoAnchor(u)
    ensures NoAnchor(AndThen(t, u))
  {
  }

  /** A downgrade hands back no anchor. */
  lemma DowngradeNoAnchor(repo: Repo, k: nat, tag: string)
    ensures NoAnchor(DowngradeTrace(repo, k, tag))
  {
    var commit := if HasChanges(Answer(repo.reply(k + 1, Status))) then StepAt(repo, k + 2, Commit(DowngradeMessage(tag))) else Safe([]);
    AndThenNoAnchor(Safe([RunAt(repo, k + 1, Status)]), commit);
    AndThenNoAnchor(StepAt(repo, k, CheckoutTree(tag)), ChangesTrace(repo, k + 1, tag));
  }

  /** A regular merge hands back no anchor. */
  lemma RegularNoAnchor(repo: Repo, k: nat, targetRef: string, normalizedTag: Option<string>, read: ManifestReader)
    ensures NoAnchor(RegularTrace(repo, k, targetRef, normalizedTag, read))
  {
    var versionRuns := VersionRuns(repo, k, targetRef, normalizedTag);
    var merge := Merge(targetRef, MergeMessage(VersionAt(repo, k, targetRef, normalizedTag, read)));
    AndThenNoAnchor(Safe(versionRuns), StepAt(repo, k + |versionRuns|, merge));
  }

  /** Only a clean update that returns hands back a rollback anchor, and the anchor is HEAD as it was before. */
  lemma AttemptAnchor(repo: Repo, k: nat, opts: MergeOptions, read: ManifestReader, anchor: string)
    ensures var t := AttemptTrace(repo, k, opts, read, anchor);
      t.outcome.Returned? ==>
        && (t.outcome.preCleanSha.Some? <==> StrategyOf(opts).CleanReplace?)
        && (t.outcome.preCleanSha.Some? ==> t.outcome.preCleanSha.value == anchor)
  {
    AttemptBranch(repo, k, opts, read, anchor);
    var tag := NormalizedTag(opts.targetTag);
    var targetRef := TargetRef(opts.targetTag);
    match StrategyOf(opts)
    case RebaseOnto =>
    case DowngradeTo(t) => DowngradeNoAnchor(repo, k, t);
    case CleanReplace => CleanReturnsAnchor(repo, k, targetRef, tag, read, anchor);
    case RegularMerge => RegularNoAnchor(repo, k, targetRef, tag, read);
  }

  /** A prefix of a list is a prefix of any extension of it. */
  lemma PrefixExtends<T>(p: seq<T>, s: seq<T>, t: seq<T>)
    requires IsPrefix(p, s)
    ensures IsPrefix(p, s + t)
  {
    assert (s + t)[..|p|] == s[..|p|];
  }

  /** A prefix of the second part, after the whole first part, is a prefix of both together. */
  lemma PrefixAfter<T>(s: seq<T>, p: seq<T>, t: seq<T>)
    requires IsPrefix(p, t)
    ensures IsPrefix(s + p, s + t)
  {
    assert (s + t)[..|s + p|] == s + t[..|p|];
  }
}
