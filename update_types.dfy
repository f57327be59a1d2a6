/**
 * The closed types and constants of the update flow: the status probe, the fetched update
 * information, the result of a merge strategy, the thirteen statuses of the state machine,
 * its ten actions, its options and its state record.
 */
module UpdateTypes {
  import opened Wrappers

  /** Name of the remote that tracks the template repository. */
  const UPSTREAM_REMOTE: string := "upstream"
  /** The URL the upstream remote is expected to point at. */
  const UPSTREAM_URL: string := "https://" + "github.com/cosZone/astro-koharu.git"
  /** Owner and name of the template repository on GitHub. */
  const GITHUB_REPO: string := "cosZone/astro-koharu"
  /** The primary branch, locally and upstream. */
  const MAIN_BRANCH: string := "main"

  /** The comparison reference used when no target tag is given: the remote's main line. */
  function DefaultRef(): (r: string)
    ensures r == "upstream/main"
  {
    UPSTREAM_REMOTE + "/" + MAIN_BRANCH
  }

  /** One entry of `git log`, as `hash|subject|relative date|author`. */
  datatype CommitInfo = CommitInfo(hash: string, message: string, date: string, author: string)

  /** The working-tree snapshot taken at the start of a run. */
  datatype GitStatus = GitStatus(
    currentBranch: string,
    isClean: bool,
    uncommittedCount: nat,
    uncommittedFiles: seq<string>)

  /** What the fetch step learned about the distance to the comparison reference. */
  datatype UpdateInfo = UpdateInfo(
    hasUpstream: bool,
    behindCount: int,
    aheadCount: int,
    commits: seq<CommitInfo>,
    localCommits: seq<CommitInfo>,
    currentVersion: string,
    latestVersion: string,
    isDowngrade: bool)

  /** The outcome of one merge strategy; optional fields are `undefined` when absent. */
  datatype MergeResult = MergeResult(
    success: bool,
    hasConflict: bool,
    conflictFiles: seq<string>,
    error: Option<string>,
    isRebaseConflict: Option<bool>,
    autoResolvedFiles: Option<seq<string>>,
    preCleanSha: Option<string>)

  /** The thirteen statuses of the update flow. */
  datatype Status =
    | Checking | DirtyWarning | BackupConfirm | BackingUp | Fetching | Preview | Merging
    | CleanRestoring | Installing | Done | Conflict | UpToDate | Error

  /** Every status, once. */
  const AllStatuses: set<Status> :=
    {Checking, DirtyWarning, BackupConfirm, BackingUp, Fetching, Preview, Merging,
     CleanRestoring, Installing, Done, Conflict, UpToDate, Error}

  /** The status type is closed: exactly thirteen statuses, and every status value is one of them. */
  lemma StatusesClosed()
    ensures forall s: Status :: s in AllStatuses
    ensures |AllStatuses| == 13
  {
    var a := {Checking, DirtyWarning, BackupConfirm, BackingUp, Fetching, Preview, Merging};
    var b := {CleanRestoring, Installing, Done, Conflict, UpToDate, Error};
    assert |a| == 7;
    assert |b| == 6;
    assert a !! b;
    assert AllStatuses == a + b;
    forall s: Status ensures s in AllStatuses {
      match s
      case Checking => case DirtyWarning => case BackupConfirm => case BackingUp =>
      case Fetching => case Preview => case Merging => case CleanRestoring =>
      case Installing => case Done => case Conflict => case UpToDate => case Error =>
    }
  }

  /** The run-wide configuration, captured once from the command line. */
  datatype Options = Options(
    checkOnly: bool,
    skipBackup: bool,
    force: bool,
    targetTag: Option<string>,
    rebase: bool,
    dryRun: bool,
    clean: bool)

  /** The actions of the state machine (GIT_CHECKED, FETCHED, BACKUP_CONFIRM, BACKUP_SKIP,
      BACKUP_DONE, UPDATE_CONFIRM, MERGED, CLEAN_RESTORED, INSTALLED, ERROR). */
  datatype Action =
    | GitChecked(gitStatus: GitStatus)
    | Fetched(info: UpdateInfo, needsMigration: Option<bool>)
    | ConfirmBackup
    | SkipBackup
    | BackupDone(backupFile: string)
    | ConfirmUpdate
    | Merged(result: MergeResult)
    | CleanRestored(restoredFiles: seq<string>)
    | Installed
    | Fail(error: string)

  /** The four actions that carry no payload. */
  predicate PayloadFree(a: Action) {
    a.ConfirmBackup? || a.SkipBackup? || a.ConfirmUpdate? || a.Installed?
  }

  /** A payload-free action is determined by its kind alone. */
  lemma PayloadFreeActions(a: Action)
    ensures PayloadFree(a) <==> a in {ConfirmBackup, SkipBackup, ConfirmUpdate, Installed}
  {
  }

  /** The full state of one update run. */
  datatype State = State(
    status: Status,
    gitStatus: Option<GitStatus>,
    updateInfo: Option<UpdateInfo>,
    mergeResult: Option<MergeResult>,
    backupFile: string,
    error: string,
    branchWarning: string,
    options: Options,
    needsMigration: bool,
    restoredFiles: seq<string>)
}
