# astro-koharu theme update, in Dafny

This project models the theme-update command of the `koharu` tool shipped with the
astro-koharu blog template. The update is driven by a pure state machine with thirteen
statuses and ten actions. An effect runner does the work of each busy status and dispatches
one action. Below it, the git operations do the actual work:

- checking and adding the `upstream` remote;
- computing how far HEAD is from the comparison reference;
- four merge strategies (rebase, downgrade by checkout, clean replacement, regular merge);
- settling conflicts, resolving user-owned files with the local side;
- restoring user content after a clean update, or rolling back.

The model also covers the command-line parser, the backup table that decides which paths
belong to the user, and the pure helpers of the update screen.

## How git is modelled

Git is modelled as a repository object, `Gateway.Repo`. Its `head` is the commit HEAD points
at, and its `log` records every command issued with its outcome. A fixed script gives the
answer to the command issued at each position, so every operation states:

- exactly which commands it issues, in order;
- what it returns, given those answers;
- where HEAD ends.

`git(...)` becomes `Repo.Git`, and a failed `git(...)` is a throw. `gitSafe(...)` becomes
`Repo.GitSafe`, where a failure becomes `None`.

Read-only queries that the effects make through other helpers are a `Query` function. These
are `hasUpstreamTrackingRef`, `tagExists`, and the queries of `getUpdateInfo`.

Modules, one per concern:

- `UpdateTypes`: the closed types and constants.
- `UpdateReducer`: the state machine.
- `UpdateEffects`: the effect runner.
- `Gateway`: git commands and the repository.
- `Remote`: URL normalisation and `ensureUpstreamRemote`.
- `Tags`: tags, the recent-tag listing and release URLs.
- `FetchInfo`: `parseCommits` and `getUpdateInfo`.
- `Conflicts`: classification, deleted files, conflict files and settling.
- `MergeStrategies`: the per-file and per-batch loops and the `catch` of `mergeUpstream`.
- `MergeFlow`: the `try` block of `mergeUpstream` and `cleanRestore`.
- `ReleaseNotes`: `extractReleaseSummary`.
- `BackupItems`: the backup table and the restore map.
- `Args`: `parseArgs`.
- `UpdateView`: the screen helpers.
- `Text`: the JavaScript string built-ins they rely on, such as `trim`, `split`, `join`, `new Set` and `parseInt`.
- `Wrappers`: `Option` and `Result`.

Where the code and its comments differ, the model follows the code. The precedence of
`mergeUpstream`, for example, checks a downgrade before the clean mode. A clean update that
is also a downgrade with a tag therefore runs as a downgrade.

## Model

| member | source | states |
|---|---|---|
| UpdateTypes.DefaultRef | scripts/koharu/constants/update.ts:2-11 | without a tag, runs compare with `upstream/main`, the upstream remote's main branch |
| UpdateTypes.StatusesClosed | scripts/koharu/constants/update.ts:83-96 | the status type has exactly thirteen values, and every status is one of them |
| UpdateTypes.PayloadFreeActions | scripts/koharu/constants/update.ts:131-141 | BACKUP_CONFIRM, BACKUP_SKIP, UPDATE_CONFIRM and INSTALLED are exactly the actions without a payload |
| UpdateReducer.BranchWarning | scripts/koharu/utils/update-reducer.ts:21-24 | the branch warning is empty exactly when the current branch is `main` |
| UpdateReducer.MergeErrorText | scripts/koharu/utils/update-reducer.ts:90 | a failed merge always gets a non-empty message; a non-empty error of its own is kept as is |
| UpdateReducer.EdgeClimbs | scripts/koharu/utils/update-reducer.ts:7-124 | every transition moves forward along the flow, except `error` to `error` |
| UpdateReducer.Reduce | scripts/koharu/utils/update-reducer.ts:7-124 | ERROR from any status, terminal ones included, yields `error` with that message and every other field unchanged; options never change; the result is the same state or a transition of the flow |
| UpdateReducer.InitialStateIsEmpty | scripts/koharu/utils/update-reducer.ts:127-140 | a run starts in `checking` with the given options, no probe, info or merge result, empty strings and list, and no migration hint |
| UpdateReducer.ActionMovesIffExpected | scripts/koharu/utils/update-reducer.ts:16-122 | a non-ERROR action changes the status exactly when the status expects it, except BACKUP_SKIP in rebase or clean mode; otherwise the state comes back unchanged |
| UpdateReducer.TerminalIgnoresNonError | scripts/koharu/utils/update-reducer.ts:114-122 | `dirty-warning`, `done`, `conflict`, `up-to-date` and `error` ignore every action but ERROR |
| UpdateReducer.CheckedTransition | scripts/koharu/utils/update-reducer.ts:16-32 | GIT_CHECKED leads to `dirty-warning` exactly when the tree is unclean and not forced, else to `fetching`; the warning is set exactly off `main`; nothing else changes |
| UpdateReducer.FetchedTransition | scripts/koharu/utils/update-reducer.ts:34-54 | FETCHED leads to `up-to-date` exactly when there are no changes; with changes, rebase or clean always asks for a backup, and otherwise skip-backup or force leads to the preview; a missing migration flag means none |
| UpdateReducer.SameVersionIsUpToDate | scripts/koharu/utils/update-reducer.ts:39-44 | equal known versions mean up to date, whatever the commit counts say |
| UpdateReducer.DowngradeIsChange | scripts/koharu/utils/update-reducer.ts:43-44 | a downgrade with local commits ahead counts as a change unless the versions match |
| UpdateReducer.BackupConfirmTransition | scripts/koharu/utils/update-reducer.ts:56-65 | BACKUP_CONFIRM always starts the backup; BACKUP_SKIP reaches the preview only outside rebase and clean mode, and is ignored in them |
| UpdateReducer.MergedTransition | scripts/koharu/utils/update-reducer.ts:82-97 | a conflict is checked first, then failure, which carries the merge's error or the default; then clean mode goes to `clean-restoring` and any other mode to `installing` |
| UpdateReducer.RunAppend | scripts/koharu/utils/update-reducer.ts:7-124 | applying two action lists in turn is applying their concatenation |
| UpdateReducer.RunKeepsOptions | scripts/koharu/utils/update-reducer.ts:7-124 | the options captured at the start never change during a run |
| UpdateReducer.RunClimbs | scripts/koharu/utils/update-reducer.ts:7-124 | a run never moves backward, and one that left its status is strictly further along |
| UpdateReducer.NoReturn | scripts/koharu/utils/update-reducer.ts:7-124 | once a run has left a status, later actions never bring it back there |
| UpdateReducer.ForcedBackup | scripts/koharu/utils/update-reducer.ts:51-65 | in rebase or clean mode, a run from the initial state that gets to the preview or beyond has a successful backup (BACKUP_DONE) among its actions |
| UpdateReducer.CleanRestoreOnlyInCleanMode | scripts/koharu/utils/update-reducer.ts:92-95 | `clean-restoring` is reached from the initial state only in clean mode |
| UpdateEffects.MismatchMessage | scripts/koharu/utils/update-effects.ts:41-48 | the mismatch error names the URL the remote has, then the template URL |
| UpdateEffects.TagMissingMessage | scripts/koharu/utils/update-effects.ts:86-94 | the missing-tag error names the tag, and adds a hint exactly when there are recent tags to offer |
| UpdateEffects.RepositoryProbe | scripts/koharu/utils/update-effects.ts:67-101 | the answers `fetching` gets: at most five recent tags, update info exactly when the local version is known, and in clean mode a downgrade only when a tag was given |
| UpdateEffects.MergeOptionsOf | scripts/koharu/utils/update-effects.ts:115-120 | `merging` passes on the tag, rebase and clean options; it counts as a downgrade exactly when the fetched info says so |
| UpdateEffects.EffectRun.constructor | scripts/koharu/utils/update-effects.ts:109 | an effect run starts with nothing dispatched, not cancelled, and no repository change |
| UpdateEffects.EffectRun.Dispatch | scripts/koharu/utils/update-effects.ts:121 | dispatching appends the action and changes nothing else |
| UpdateEffects.EffectRun.Cleanup | scripts/koharu/utils/update-effects.ts:128-130 | the returned cleanup sets the cancelled flag and nothing else |
| UpdateEffects.EffectRun.CheckingEffect | scripts/koharu/utils/update-effects.ts:27-65 | `checking` dispatches exactly one action: the clean-and-rebase error before any query; the probe's error; a mismatch error naming the current URL; a distinct error for a missing remote in check mode; the add failure otherwise; or GIT_CHECKED with the probe exactly when the remote is confirmed. A configured remote whose URL normalises differently is reported by that URL. `git remote add` is issued exactly when the remote is absent outside check mode, so check mode never changes the repository |
| UpdateEffects.EffectRun.FetchingEffect | scripts/koharu/utils/update-effects.ts:67-106 | check mode never fetches and needs the tracking ref; otherwise a failed fetch is an error; a missing tag is an error listing recent tags and stops before the update info; FETCHED carries the info, and its migration hint is false in rebase or clean mode |
| UpdateEffects.EffectRun.MergingTask | scripts/koharu/utils/update-effects.ts:108-131 | a cancelled task neither touches the repository nor dispatches; otherwise it dispatches one MERGED whose result is well formed, never a conflict for a downgrade, and carries a rollback anchor only in clean mode, equal to HEAD before the merge |
| UpdateEffects.EffectRun.CleanRestoringTask | scripts/koharu/utils/update-effects.ts:133-157 | a cancelled task does nothing. Without a backup file, it reports that error and leaves the repository alone. Otherwise the restored paths are reported, with HEAD on the amended commit. A failure is reported with the restore prefix; with an anchor and a successful reset, HEAD is back on the anchor, and without an anchor HEAD stays put |
| UpdateEffects.EffectRun.InstallingEffect | scripts/koharu/utils/update-effects.ts:162 | entering `installing` launches the install and dispatches nothing yet |
| UpdateEffects.EffectRun.InstallSettled | scripts/koharu/utils/update-effects.ts:163-174 | a cancelled install dispatches nothing; otherwise INSTALLED exactly on success, else an error prefixed with the install-failure text |
| UpdateEffects.DispatchMovesOn | scripts/koharu/utils/update-effects.ts:26-181 | whatever an effect dispatches moves the state machine off that status |
| Gateway.OrElse | scripts/koharu/utils/update-operations.ts:437 | a `gitSafe` answer with a fallback: the answer when it is present and non-empty, the fallback otherwise |
| Gateway.Repo.constructor | scripts/koharu/utils/update-operations.ts:21-45 | a repository starts at the given HEAD with an empty log |
| Gateway.Repo.Git | scripts/koharu/utils/update-operations.ts:21-34 | `git(...)` logs one run with the repository's answer; HEAD moves only for a reset or a commit-creating command that succeeds; `rev-parse HEAD` answers with HEAD |
| Gateway.Repo.GitSafe | scripts/koharu/utils/update-operations.ts:39-45 | `gitSafe(...)` is `git(...)` with a failure turned into None |
| Tags.NormalizeTag | scripts/koharu/utils/update-operations.ts:171-173 | the result starts with `v`; a `v`-prefixed tag is kept, and any other gets `v` in front |
| Tags.NormalizeTagIdempotent | scripts/koharu/utils/update-operations.ts:171-173 | normalising twice is normalising once |
| Tags.NormalizeTagWithOrWithoutV | scripts/koharu/utils/update-operations.ts:171-173 | a tag and the same tag with `v` in front normalise alike |
| Tags.TargetRef | scripts/koharu/utils/update-operations.ts:196-197 | the comparison reference is a `v` tag exactly when a non-empty tag is given, and that tag is already in normal form; without a tag it is the remote's main line, which does not start with `v` |
| Tags.TargetRefWithOrWithoutV | scripts/koharu/utils/update-operations.ts:196-197 | a tag written with or without its leading `v` selects the same reference |
| Tags.SliceLength | scripts/koharu/utils/update-operations.ts:633 | how many elements `slice(0, limit)` keeps, negative limits included |
| Tags.SliceFromStart | scripts/koharu/utils/update-operations.ts:633 | `slice(0, limit)` keeps a prefix of the list, of the length JavaScript's slice rules give for that limit |
| Tags.ListRecentTags | scripts/koharu/utils/update-operations.ts:627-634 | the recent tags are the first `limit` non-blank trimmed lines of the tag listing, in order |
| Tags.RecentTagsBounded | scripts/koharu/utils/update-operations.ts:627-634 | the listing never offers more tags than asked for |
| Tags.BuildReleaseUrl | scripts/koharu/utils/update-operations.ts:676-679 | every release URL points at a `v` tag on the repository's release pages, whatever form the version was given in |
| Tags.ReleaseUrlInjective | scripts/koharu/utils/update-operations.ts:676-679 | two versions share a release page exactly when their tags normalise alike |
| Remote.ScpMatch | scripts/koharu/utils/update-operations.ts:57-58 | a match of `user@host:path` has a non-empty host without `:` and a non-empty path without line breaks |
| Remote.ScpMatchOfScpUrl | scripts/koharu/utils/update-operations.ts:57-58 | every well-formed scp-like URL is recognised, and its host and path are recovered |
| Remote.NormalizeIgnoresSurroundingSpace | scripts/koharu/utils/update-operations.ts:47-62 | white space around a configured URL never changes what it normalises to |
| Remote.ScpUrlHasNoScheme | scripts/koharu/utils/update-operations.ts:49 | an scp-like URL is never taken for a scheme URL |
| Remote.NormalizeScpUrl | scripts/koharu/utils/update-operations.ts:57-60 | an scp-like remote normalises to its host immediately followed by its path less `.git`, whatever the URL parser does |
| Remote.NormalizeScpGitUrl | scripts/koharu/utils/update-operations.ts:57-60 | a `.git` scp-like remote normalises to host and name glued together |
| Remote.ScpGitSuffixIgnored | scripts/koharu/utils/update-operations.ts:57-61 | scp-like remotes differing only by `.git` compare equal |
| Remote.ScpFormOfUpstream | scripts/koharu/utils/update-operations.ts:57-60 | the SSH form of the template URL normalises to `github.comcosZone/astro-koharu`, with no `/` between host and path |
| Remote.NormalizeSchemeUrl | scripts/koharu/utils/update-operations.ts:49-53 | a trimmed scheme URL that parses normalises to its hostname and its pathname less `.git` |
| Remote.UpstreamUrlIsHttps | scripts/koharu/constants/update.ts:5 | the template URL has no surrounding white space and takes the scheme branch |
| Remote.HttpsFormOfUpstream | scripts/koharu/constants/update.ts:5-8 | under a parser that reads it the standard way, the template URL normalises to `github.com/cosZone/astro-koharu` |
| Remote.SchemeUrlForm | scripts/koharu/utils/update-operations.ts:49-53 | a scheme URL whose pathname ends in `.git` normalises to hostname and name |
| Remote.EnsureUpstreamRemote | scripts/koharu/utils/update-operations.ts:121-137 | an existing remote is only compared, never changed: success exactly when the URLs normalise alike, else a mismatch carrying its URL. An absent remote is `missing` without `allowAdd`; with it, an add is attempted and its outcome decides. The add is attempted exactly when the remote is absent and adding is allowed |
| Remote.MismatchReported | scripts/koharu/utils/update-operations.ts:124-128 | a remote whose URL normalises differently is a mismatch with its URL, and nothing is added |
| Remote.ScpUpstreamIsReportedAsMismatch | scripts/koharu/utils/update-operations.ts:57-60 | a remote set to the SSH form of the template URL is reported as a mismatch |
| FetchInfo.CommitsOf | scripts/koharu/utils/update-operations.ts:161-165 | one commit per line, in order |
| FetchInfo.CommitOfFormatCommit | scripts/koharu/utils/update-operations.ts:163-164 | a printed log line of hash, subject, date and author reads back as its commit |
| FetchInfo.ParseFormatLog | scripts/koharu/utils/update-operations.ts:154-166 | `parseCommits` of the printed log of printable commits gives the commits back |
| FetchInfo.PrintedLogTrimmed | scripts/koharu/utils/update-operations.ts:155-158 | a printed log has nothing for `trim` to remove and is not empty |
| FetchInfo.ManifestVersion | scripts/koharu/utils/update-operations.ts:273-285 | a version is read only from a non-empty answer, and it is non-empty |
| FetchInfo.LatestVersion | scripts/koharu/utils/update-operations.ts:227-244 | with a tag, the target version is the normalised tag without its `v`; without one, it is upstream main's package version, else `unknown` |
| FetchInfo.GetUpdateInfo | scripts/koharu/utils/update-operations.ts:179-256 | without an upstream remote, nothing behind, nothing ahead, no commits and version `unknown`. Otherwise the counts come from `rev-list`, and `isDowngrade` holds exactly when a tag was given, HEAD is ahead and nothing is behind. A downgrade lists the local commits as its commits |
| FetchInfo.RevListCounts | scripts/koharu/utils/update-operations.ts:200-203 | a well-formed `rev-list --count` answer reads as the two numbers it spells |
| FetchInfo.FailedRevListIsLevel | scripts/koharu/utils/update-operations.ts:200 | a failed count query reads as nothing ahead and nothing behind |
| FetchInfo.DowngradeFromCounts | scripts/koharu/utils/update-operations.ts:205-206 | with a tag, the run is a downgrade exactly when HEAD is ahead of it and nothing is behind |
| BackupItems.FromEntriesInverts | scripts/koharu/constants/backup.ts:45 | with distinct archive paths, `Object.fromEntries` sends each item's archive path to its project path |
| BackupItems.RequiredItems | scripts/koharu/constants/backup.ts:32-36 | the required items are exactly `src/content/blog`, `config/site.yaml`, `src/pages`, `public/img` and `.env` |
| BackupItems.FullOnlyItems | scripts/koharu/constants/backup.ts:32-41 | the first five items are required and the four extra items of a full backup are not |
| BackupItems.ArchivePaths | scripts/koharu/constants/backup.ts:31-42 | the archive paths of the table, in order |
| BackupItems.ArchivePathsDistinct | scripts/koharu/constants/backup.ts:31-42 | no two items share an archive path |
| BackupItems.RestoreMapInvertsItems | scripts/koharu/constants/backup.ts:45 | the restore map has one entry per item and sends each archive path to the item's project path |
| BackupItems.OnlyPagesHavePattern | scripts/koharu/constants/backup.ts:34 | only `src/pages` restricts its files, to `*.md` |
| Conflicts.UserContentIsRequired | scripts/koharu/utils/update-operations.ts:290 | the user-owned prefixes are the project paths of the required backup items, in table order |
| Conflicts.UserContentPaths | scripts/koharu/utils/update-operations.ts:295-297 | a path is user content exactly when it equals one of the five required paths or lies under one as a directory |
| Conflicts.SiblingIsThemeFile | scripts/koharu/utils/update-operations.ts:296 | a path that merely shares a user path's first characters (`src/pages-old/...`) is not under it |
| Conflicts.ClassifyPartition | scripts/koharu/utils/update-operations.ts:302-313 | every conflict lands in exactly one list: user files are the user-content entries, theme files the rest, and together they are the input |
| Conflicts.ClassifyConflicts | scripts/koharu/utils/update-operations.ts:302-313 | the loop returns the user files and the theme files, each in input order |
| Conflicts.RemovableExactly | scripts/koharu/utils/update-operations.ts:356-361 | a file is removable exactly when it is tracked, absent upstream and not user content, and none is listed twice |
| Conflicts.FilesToRemove | scripts/koharu/utils/update-operations.ts:356-361 | the loop picks exactly the removable files, in tracked order |
| Conflicts.DeletedFilesExactly | scripts/koharu/utils/update-operations.ts:339-361 | from the two listings, a file is deleted exactly when it is tracked, absent from the target's tree and not user content, each once |
| Conflicts.ChunksBounded | scripts/koharu/utils/update-operations.ts:363-371 | every batch holds between one and the batch size of files |
| Conflicts.ChunksFlatten | scripts/koharu/utils/update-operations.ts:363-371 | batching loses, repeats and reorders nothing |
| Conflicts.ChunksFull | scripts/koharu/utils/update-operations.ts:363-371 | every batch but the last is full |
| Conflicts.StatusCode | scripts/koharu/utils/update-operations.ts:549 | the status of a porcelain line is its first two characters at most |
| Conflicts.PathOfStatusLine | scripts/koharu/utils/update-operations.ts:552 | the path of a porcelain line is everything after its first three characters |
| Conflicts.UnmergedPathsExactly | scripts/koharu/utils/update-operations.ts:544-554 | a path is reported from the status exactly when a non-blank unmerged line names it |
| Conflicts.UnmergedEntryReported | scripts/koharu/utils/update-operations.ts:544-554 | a `UU` entry reports its path |
| Conflicts.ConflictFilesOfSpec | scripts/koharu/utils/update-operations.ts:533-555 | conflict files are listed once each: the paths `git diff` names when it names any, else the unmerged paths of the porcelain status, and none when that failed too |
| Conflicts.ConflictFilesIgnoreStatus | scripts/koharu/utils/update-operations.ts:534-544 | reading the status only when the diff lists nothing gives the same result as always reading it |
| Conflicts.WithoutExactly | scripts/koharu/utils/update-operations.ts:492 | the filter keeps the entries not in the other list |
| Conflicts.SettleRegularConflicts | scripts/koharu/utils/update-operations.ts:483-513 | no conflict exactly when no theme or failed file remains and the commit succeeded; then success with the resolved list. A conflict lists the theme files followed by the failed user files, and lists resolved files only when there are any |
| Conflicts.ResolvedAreUnfailedUserFiles | scripts/koharu/utils/update-operations.ts:489-492 | the resolved files are the user files that did not fail, even though the filter runs against theme files and failed files together |
| Conflicts.EmptyConflictListPossible | scripts/koharu/utils/update-operations.ts:494-513 | a regular merge can report a conflict with an empty file list: all user files resolved, no theme conflicts, but the commit failed |
| MergeStrategies.FailedFiles | scripts/koharu/utils/update-operations.ts:320-334 | the failed list holds exactly the files whose resolution did not complete |
| MergeStrategies.ResolveOne | scripts/koharu/utils/update-operations.ts:323-331 | one file: `checkout --ours` then `add`, with `checkout -m` after a failed add; resolved exactly when both succeeded; HEAD does not move |
| MergeStrategies.AutoResolveUserContent | scripts/koharu/utils/update-operations.ts:320-334 | every user file is tried in order, the log is the concatenation of their commands, the failed files come back in order, and HEAD does not move |
| MergeStrategies.FailedIffNotStaged | scripts/koharu/utils/update-operations.ts:320-334 | with distinct files, a file is reported failed exactly when its checkout or its add failed |
| MergeStrategies.ResolvedIffBothSucceeded | scripts/koharu/utils/update-operations.ts:323-331 | a file is resolved exactly when both of its first two commands succeeded |
| MergeStrategies.VersionInfoOf | scripts/koharu/utils/update-operations.ts:273-285 | the version in a merge message is never empty; without a tag it is `latest` or a `v` followed by a non-empty version |
| MergeFlow.VersionInfoNamesVersion | scripts/koharu/utils/update-operations.ts:273-285 | the version a merge message names is `latest` exactly when no tag is given and the target's manifest has no version; otherwise it starts with `v`. With a tag it is the reference being merged, and without one it carries the manifest version after its `v` |
| MergeStrategies.VersionInfo | scripts/koharu/utils/update-operations.ts:273-285 | the manifest is queried only when no tag was given; HEAD does not move |
| MergeStrategies.BatchRunsCmds | scripts/koharu/utils/update-operations.ts:363-371 | one `git rm` per batch, in order |
| MergeStrategies.RemoveInBatches | scripts/koharu/utils/update-operations.ts:363-371 | the batch loop issues one removal per batch, in order; HEAD does not move |
| MergeStrategies.ListingCmds | scripts/koharu/utils/update-operations.ts:340-354 | the listings are `git ls-files` and then `git ls-tree -r --name-only <ref>` |
| MergeStrategies.ListRemovable | scripts/koharu/utils/update-operations.ts:340-361 | two listings are issued and the files to delete come back |
| MergeStrategies.ListPaths | scripts/koharu/utils/update-operations.ts:340-354 | a listing yields the distinct non-blank trimmed paths of the answer, and none when it failed |
| MergeStrategies.RemoveDeletedUpstreamFiles | scripts/koharu/utils/update-operations.ts:339-372 | the listings, then one `git rm` per batch of the files to delete; HEAD does not move |
| MergeStrategies.StatusIf | scripts/koharu/utils/update-operations.ts:544 | the status is queried only when asked for |
| MergeStrategies.GetConflictFiles | scripts/koharu/utils/update-operations.ts:533-555 | `git diff` is issued, and the status only when the diff lists nothing; the files are those of `ConflictFilesOf`; HEAD does not move |
| MergeStrategies.SettleRegular | scripts/koharu/utils/update-operations.ts:483-513 | user files are resolved in order, and the commit is issued only when no theme or failed file remains; the result is the settled one |
| MergeStrategies.SettleFailure | scripts/koharu/utils/update-operations.ts:468-529 | a failed downgrade is its error and issues nothing. Otherwise the conflict files decide: none means the original error; a rebase or clean update reports them as they are; a regular merge settles them. The result is always well formed, and only appends to the log. `SettledAt` states the same outcome for the conflict query at the position where the `catch` begins |
| MergeFlow.NormalizedTag | scripts/koharu/utils/update-operations.ts:427 | a normalised tag exists exactly when a non-empty tag was given, and it is the comparison reference |
| MergeFlow.StrategyOf | scripts/koharu/utils/update-operations.ts:431-462 | rebase wins; then a downgrade with a tag; then clean; else a regular merge |
| MergeFlow.AttemptBranch | scripts/koharu/utils/update-operations.ts:430-467 | the `try` block runs the branch of the selected strategy |
| MergeFlow.Throwing | scripts/koharu/utils/update-operations.ts:21-34 | a `git(...)` call either succeeds or ends the attempt with its error text |
| MergeFlow.RebaseAttempt | scripts/koharu/utils/update-operations.ts:431-433 | the rebase branch issues `git rebase <ref>` alone |
| MergeFlow.DowngradeAttempt | scripts/koharu/utils/update-operations.ts:434-440 | checkout of the tag's tree, then the status, then a commit only when the status shows changes |
| MergeFlow.RegularAttempt | scripts/koharu/utils/update-operations.ts:458-462 | the version lookup, then `git merge --no-ff` with the version in its message |
| MergeFlow.CleanMerge | scripts/koharu/utils/update-operations.ts:444-446 | read HEAD as the anchor, look the version up, and merge with `-s ours`; the anchor is HEAD before the merge |
| MergeFlow.PruneTree | scripts/koharu/utils/update-operations.ts:447-448 | checkout of the target's tree, and, when it succeeds, the pruning of upstream deletions |
| MergeFlow.StageAndAmend | scripts/koharu/utils/update-operations.ts:450-451 | `git add -A` then the amend; HEAD is the amended commit on success and does not move on failure |
| MergeFlow.ReplaceTree | scripts/koharu/utils/update-operations.ts:447-451 | the replacement of the tree; when it returns, HEAD is the amended commit |
| MergeFlow.CleanAttempt | scripts/koharu/utils/update-operations.ts:441-457 | the clean branch returns its rollback anchor only when every step succeeded, and HEAD is then the amended merge commit |
| MergeFlow.RunAttempt | scripts/koharu/utils/update-operations.ts:430-467 | the `try` block logs exactly the runs of the selected branch; a returning clean attempt leaves HEAD on a new commit |
| MergeFlow.Succeeded | scripts/koharu/utils/update-operations.ts:452-467 | a strategy that returned gives a well-formed success |
| MergeFlow.MergeUpstream | scripts/koharu/utils/update-operations.ts:425-531 | every result is well formed. A returning attempt is a success, and only the clean branch carries an anchor: HEAD before the merge, with HEAD now on the amended commit. A thrown error is settled by the `catch` exactly as `SettleFailure` states, with the conflict query issued right after the attempt's own commands: a failed downgrade is its error; no unmerged files means the error; a rebase or clean update reports the conflict files as they are; a regular merge resolves the user's files and keeps the rest in conflict. A failed downgrade is never a conflict |
| MergeFlow.Rollback | scripts/koharu/utils/update-operations.ts:385-387 | `reset --hard` is issued only with an anchor, and a successful reset puts HEAD back on it |
| MergeFlow.CleanRestore | scripts/koharu/utils/update-operations.ts:378-391 | a successful restore and amend returns the restored paths, with HEAD on the amended commit. Any failure resets to the anchor, if given, and passes the original error on; without an anchor HEAD does not move |
| MergeFlow.DowngradeSound | scripts/koharu/utils/update-operations.ts:434-440 | the downgrade issues the checkout, the status and, only when it shows changes, the commit; a throw comes from the failed checkout or commit |
| MergeFlow.RegularSound | scripts/koharu/utils/update-operations.ts:458-462 | the regular branch keeps to its plan, and a throw comes from its last command |
| MergeFlow.CleanMergeSound | scripts/koharu/utils/update-operations.ts:444-446 | the first part of the clean branch keeps to `rev-parse HEAD`, the version lookup and the ours-merge |
| MergeFlow.TreeSound | scripts/koharu/utils/update-operations.ts:447-451 | every step of the tree replacement keeps to its plan, and a throw comes from its failed last command |
| MergeFlow.ReplacePlan | scripts/koharu/utils/update-operations.ts:447-451 | spelled out, the replacement is the checkout, the two listings, one `git rm` per batch, `git add -A` and the amend |
| MergeFlow.CleanSound | scripts/koharu/utils/update-operations.ts:441-457 | the clean branch keeps to its full plan and stops at the first `git(...)` that throws |
| MergeFlow.CleanReturnsAnchor | scripts/koharu/utils/update-operations.ts:444-457 | a returning clean branch hands back the anchor, and its last command is a successful amend |
| MergeFlow.AttemptThrowsAtLast | scripts/koharu/utils/update-operations.ts:430-468 | whatever the strategy, a throw comes from the last command issued, which failed, and carries its error |
| MergeFlow.AttemptAnchor | scripts/koharu/utils/update-operations.ts:441-467 | only a clean update that returns hands back a rollback anchor, and it is HEAD as it was before |
| ReleaseNotes.LeadingHashes | scripts/koharu/utils/update-operations.ts:691 | the number of leading `#` characters, all of them |
| ReleaseNotes.StripHeading | scripts/koharu/utils/update-operations.ts:691 | a line not starting with `#` is kept; otherwise up to six marks and the white space after them are removed, and what is left is a suffix of the line |
| ReleaseNotes.StripHeadingOfHeading | scripts/koharu/utils/update-operations.ts:691 | a heading of one to six marks and a space gives its text back |
| ReleaseNotes.SummaryOf | scripts/koharu/utils/update-operations.ts:687-693 | no candidate line is empty |
| ReleaseNotes.StopsAtUnique | scripts/koharu/utils/update-operations.ts:698-702 | the point where the summary stops is unique |
| ReleaseNotes.StopsWithinLineLimit | scripts/koharu/utils/update-operations.ts:698-702 | the summary never keeps more lines than allowed |
| ReleaseNotes.StopsWithinCharLimit | scripts/koharu/utils/update-operations.ts:698-702 | every kept line but the last started below the character limit; the last may overshoot it |
| ReleaseNotes.Summarize | scripts/koharu/utils/update-operations.ts:698-707 | the loop keeps the lines up to the unique stopping point, then adds "..." when lines were left out |
| ReleaseNotes.ExtractReleaseSummary | scripts/koharu/utils/update-operations.ts:684-710 | a missing or empty body gives nothing; otherwise the cut of the body's candidate lines |
| Args.ParseArgs | scripts/koharu/utils/args.ts:33-108 | the loop computes the record of the one-pass parse; an empty argument list gives the default record |
| Args.ReadArgument | scripts/koharu/utils/args.ts:55-104 | one turn reads the token at `i`, and the next turn starts right after it, stepping over a consumed value |
| Args.TokensSpellArguments | scripts/koharu/utils/args.ts:54-105 | reading never loses or reorders an argument: the tokens spell exactly the argument list |
| Args.ApplyKeep | scripts/koharu/utils/args.ts:68-73 | `--keep` with a value sets `keep` only when the value reads as a positive integer, and changes nothing else |
| Args.ApplyValued | scripts/koharu/utils/args.ts:68-83 | an option with a value touches only the field it names: `--tag` and `--model` store their value as it is, `--keep` changes at most `keep` |
| Args.SwitchNames | scripts/koharu/utils/args.ts:56-87 | every switch has its long name and `-h` is the only other name, so switch names do not clash |
| Args.SwitchOnIffNamed | scripts/koharu/utils/args.ts:56-87 | a switch is on exactly when some argument read as a flag names it; `--help` and `-h` both turn on help |
| Args.CommandIsFirstWord | scripts/koharu/utils/args.ts:88-90 | the command is the first non-empty word of the command line |
| Args.ValueIsTaken | scripts/koharu/utils/args.ts:68-83 | a value option followed by a non-empty argument takes it, even one starting with `--`, and reading resumes after it |
| Args.TagAndModelVerbatim | scripts/koharu/utils/args.ts:74-83 | wherever reading reaches `--tag` or `--model` with a non-empty argument after it, that argument becomes the value verbatim, nothing else changes, and reading resumes after it |
| Args.UnknownSwitchIgnored | scripts/koharu/utils/args.ts:88 | an unknown argument starting with `-` changes nothing |
| Args.WordStep | scripts/koharu/utils/args.ts:88 | an argument that does not start with `-` is read as one word, and reading goes on with the next argument |
| Args.GenerateTypeFiltered | scripts/koharu/utils/args.ts:91-95 | wherever reading reaches a word after `generate` with no type yet, the word becomes the type only when it is a generate type; any other word is dropped, so it never becomes the backup file |
| Args.NewTypeFiltered | scripts/koharu/utils/args.ts:96-100 | wherever reading reaches a word after `new` with no type yet, the word becomes the type only when it is a new type, and is dropped otherwise |
| Args.LaterWordsReplaceBackupFile | scripts/koharu/utils/args.ts:101-102 | once the command and any type are settled, each further word replaces the backup file |
| UpdateView.ModeOf | scripts/koharu/update.tsx:15-20 | rebase wins over clean, clean over a downgrade, and anything else is a plain update |
| UpdateView.ModeLabelNamesMode | scripts/koharu/update.tsx:15-20 | two option sets get the same label exactly when they select the same mode |
| UpdateView.ConfirmFollowsMode | scripts/koharu/update.tsx:23-29 | the question depends on the options only through the mode and whether a tag was given |
| UpdateView.RewriteWarningIffRebase | scripts/koharu/update.tsx:25 | only a rebase warns that history will be rewritten |
| UpdateView.RebaseTarget | scripts/koharu/update.tsx:25 | a rebase without a tag names upstream's latest rather than a version |
| UpdateView.VersionNamedOnlyWhenChosen | scripts/koharu/update.tsx:23-29 | without a tag and outside a plain downgrade, the question does not depend on the version |
| UpdateView.TargetNamesVersionIffTag | scripts/koharu/update.tsx:24 | the target reads `版本 v<latestVersion>` exactly when a tag was given |
| UpdateView.BackupChoiceOf | scripts/koharu/update.tsx:141-148 | `backup` backs up, `skip` skips, and any other value cancels |
| UpdateView.BackupFailure | scripts/koharu/update.tsx:134 | a backup failure is reported with the `备份失败: ` prefix |
| UpdateView.BackupSelectOutcome | scripts/koharu/update.tsx:128-148 | from `backup-confirm`: a backup that succeeds reaches the preview with its archive; one that fails ends in `error`; a skip reaches the preview only outside rebase and clean; a cancel changes nothing |
| UpdateView.AutoConfirmStartsMerge | scripts/koharu/update.tsx:120-125 | a forced preview either confirms itself and starts merging, or, in check-only or dry-run mode, finishes there; never both; without force nothing is confirmed |

## Left out

- Running git: commands are answered by the repository's script. Real processes, their quoting and the trimming of `execSync` output are not modelled.
- `checkGitStatus`: its result is a parameter of `checking` (`probe`), and its own query is not modelled.
- `hasUpstreamTrackingRef`, `tagExists`, `fetchUpstream` and `hasUpstreamMergeHistory` are answers the `fetching` effect receives. Their ancestor checks and the network fetch are external.
- WHATWG URL parsing in `normalizeRemoteUrl` is a parameter (`UrlParser`). Only its hostname and pathname are used, and a parser that throws answers None.
- `JSON.parse` of `package.json` is a parameter (`ManifestReader`).
- `getVersion` and `restoreBackup` are not part of this model. The local version and the restore outcome (the restored paths or the error thrown) are parameters.
- `path.join(BACKUP_DIR, backupFile)` and `path.basename`: the backup file name is passed to the restore as is, and the archive's base name is a parameter of the backup choice.
- `fetchReleaseInfo`: network access with a timeout. Only `buildReleaseUrl` and `extractReleaseSummary` are modelled.
- `installDeps`: spawning the package manager. Its outcome is a parameter of `InstallSettled`.
- `runBackup`: file copying, archiving and timestamps. Its outcome is a parameter of `BackupSelectActions`.
- `abortMerge` and `abortRebase`: they run after a conflict, outside the flow modelled here.
- React and Ink: hooks, rendering, microtask deferral and the command-to-mode table of `koharu.tsx`. The deferred effects are one method for the start and one for the settled promise.
- `.catch` handlers of the effects and `err.message` formatting: a thrown error is its message string.
- UpdateEffects.EffectRun.MergingTask: a `mergeUpstream` that throws outside its own `try`, reaching the effect's `.catch`, is not modelled. Every git call after its `catch` begins is a `gitSafe`, or is caught by the inner `try`.
- Integer width: `Number.parseInt` and counts use unbounded integers, so values beyond 2^53 are read exactly rather than rounded.
- The ten boolean options of the parsed command line are a set of switches rather than ten fields. A switch in the set is the option set to true.
- MergeStrategies.SettleFailure: when the attempt threw, the log after the `catch` is stated as an extension of the attempt's log, not spelled out command by command.
- MergeFlow.MergeUpstream: HEAD after a rebase, a downgrade or a regular merge is not stated. Only the clean branch's HEAD is stated, because the rollback depends on it.
- FetchInfo.CommitOf: a line with fewer than four `|`-separated fields gives "" for each missing field, where JavaScript destructuring gives `undefined`. `git log` with the four-field format always prints all four.
- UpdateEffects.EffectRun.CheckingEffect: `currentUrl ?? 'unknown'` is modelled with `OrElse`, which also falls back on an empty URL. A mismatch always carries the non-empty configured URL, so the two agree wherever the fallback is used.
- `UPSTREAM_URL` is written as the concatenation of `https://` and the rest of the same address, which is the same string.
