/**
 * The update state machine: a pure `(state, action) -> state` function over the thirteen
 * statuses, the initial state, and the properties of its transitions and of whole runs.
 */
module UpdateReducer {
  import opened Wrappers
  import opened UpdateTypes

  /** The message kept when a failed merge carries no error text of its own. */
  const DEFAULT_MERGE_ERROR: string := "合并失败"

  /** The warning shown when the run starts off the main branch; it never blocks the run. */
  function BranchWarning(branch: string): (w: string)
    ensures w == "" <==> branch == MAIN_BRANCH
  {
    if branch != MAIN_BRANCH then "当前在 " + branch + " 分支，建议在 " + MAIN_BRANCH + " 分支执行更新"
    else ""
  }

  /** `result.error || '合并失败'`: a missing or empty error text falls back to the default. */
  function MergeErrorText(error: Option<string>): (e: string)
    ensures e != ""
    ensures error.Some? && error.value != "" ==> e == error.value
  {
    if error.Some? && error.value != "" then error.value else DEFAULT_MERGE_ERROR
  }

  /** Both versions are known and equal. */
  predicate VersionsMatch(info: UpdateInfo) {
    info.currentVersion == info.latestVersion && info.latestVersion != "unknown"
  }

  /** There is something to apply: an upgrade (behind) or a downgrade (ahead), unless versions match. */
  predicate HasChanges(info: UpdateInfo) {
    !VersionsMatch(info) && (info.behindCount > 0 || (info.isDowngrade && info.aheadCount > 0))
  }

  /** Statuses that no action other than ERROR leaves. */
  predicate IsTerminal(st: Status) {
    st == DirtyWarning || st == Done || st == Conflict || st == UpToDate || st == Error
  }

  /** The transitions of the update flow; every status may also move to `error`. */
  predicate Edge(from: Status, to: Status) {
    || to == Error
    || (from == Checking && (to == DirtyWarning || to == Fetching))
    || (from == Fetching && (to == UpToDate || to == BackupConfirm || to == Preview))
    || (from == BackupConfirm && (to == BackingUp || to == Preview))
    || (from == BackingUp && to == Preview)
    || (from == Preview && to == Merging)
    || (from == Merging && (to == Conflict || to == CleanRestoring || to == Installing))
    || (from == CleanRestoring && to == Installing)
    || (from == Installing && to == Done)
  }

  /** A position along the flow; every edge except `error -> error` climbs it. */
  function Rank(st: Status): nat {
    match st
    case Checking => 0
    case DirtyWarning => 1
    case Fetching => 1
    case UpToDate => 2
    case BackupConfirm => 2
    case BackingUp => 3
    case Preview => 4
    case Merging => 5
    case CleanRestoring => 6
    case Conflict => 6
    case Installing => 7
    case Done => 8
    case Error => 9
  }

  /** The flow is acyclic apart from the `error` self-loop. */
  lemma EdgeClimbs(from: Status, to: Status)
    requires Edge(from, to)
    ensures Rank(from) < Rank(to) || (from == Error && to == Error)
  {
  }

  /** The action kind a status waits for; terminal statuses wait for none. */
  predicate Expects(st: Status, a: Action) {
    match st
    case Checking => a.GitChecked?
    case Fetching => a.Fetched?
    case BackupConfirm => a.ConfirmBackup? || a.SkipBackup?
    case BackingUp => a.BackupDone?
    case Preview => a.ConfirmUpdate?
    case Merging => a.Merged?
    case CleanRestoring => a.CleanRestored?
    case Installing => a.Installed?
    case DirtyWarning => false
    case Done => false
    case Conflict => false
    case UpToDate => false
    case Error => false
  }

  /** The reducer. ERROR is handled before anything else, so it applies in every status. */
  function Reduce(s: State, a: Action): (r: State)
    ensures a.Fail? ==> r == s.(status := Error, error := a.error)
    ensures r.options == s.options
    ensures r == s || Edge(s.status, r.status)
  {
    if a.Fail? then s.(status := Error, error := a.error)
    else
      match s.status
      case Checking =>
        if !a.GitChecked? then s
        else
          var warning := BranchWarning(a.gitStatus.currentBranch);
          if !a.gitStatus.isClean && !s.options.force then
            s.(status := DirtyWarning, gitStatus := Some(a.gitStatus), branchWarning := warning)
          else
            s.(status := Fetching, gitStatus := Some(a.gitStatus), branchWarning := warning)
      case Fetching =>
        if !a.Fetched? then s
        else if !HasChanges(a.info) then s.(status := UpToDate, updateInfo := Some(a.info))
        else
          var forceBackup := s.options.rebase || s.options.clean;
          var next :=
            if forceBackup then BackupConfirm
            else if s.options.skipBackup || s.options.force then Preview
            else BackupConfirm;
          s.(status := next, updateInfo := Some(a.info), needsMigration := a.needsMigration.GetOr(false))
      case BackupConfirm =>
        if a.ConfirmBackup? then s.(status := BackingUp)
        else if a.SkipBackup? && !s.options.rebase && !s.options.clean then s.(status := Preview)
        else s
      case BackingUp =>
        if a.BackupDone? then s.(status := Preview, backupFile := a.backupFile) else s
      case Preview =>
        if a.ConfirmUpdate? then s.(status := Merging) else s
      case Merging =>
        if !a.Merged? then s
        else if a.result.hasConflict then s.(status := Conflict, mergeResult := Some(a.result))
        else if !a.result.success then s.(status := Error, error := MergeErrorText(a.result.error))
        else if s.options.clean then s.(status := CleanRestoring, mergeResult := Some(a.result))
        else s.(status := Installing, mergeResult := Some(a.result))
      case CleanRestoring =>
        if a.CleanRestored? then s.(status := Installing, restoredFiles := a.restoredFiles) else s
      case Installing =>
        if a.Installed? then s.(status := Done) else s
      case DirtyWarning => s
      case Done => s
      case Conflict => s
      case UpToDate => s
      case Error => s
  }

  /** The state a run starts in. */
  function InitialState(options: Options): State {
    State(Checking, None, None, None, "", "", "", options, false, [])
  }

  /** The initial state is `checking` with nothing recorded yet and the given options. */
  lemma InitialStateIsEmpty(options: Options)
    ensures var s := InitialState(options);
      && s.status == Checking && s.options == options
      && s.gitStatus.None? && s.updateInfo.None? && s.mergeResult.None?
      && s.backupFile == "" && s.error == "" && s.branchWarning == ""
      && !s.needsMigration && s.restoredFiles == []
  {
  }

  /** A non-ERROR action moves the state exactly when the status expects it, with the one
      exception of BACKUP_SKIP in rebase or clean mode; otherwise the very same state comes back. */
  lemma ActionMovesIffExpected(s: State, a: Action)
    requires !a.Fail?
    ensures var forcedSkip := a.SkipBackup? && (s.options.rebase || s.options.clean);
      Reduce(s, a).status != s.status <==> Expects(s.status, a) && !forcedSkip
    ensures Reduce(s, a).status == s.status ==> Reduce(s, a) == s
  {
  }

  /** `dirty-warning`, `done`, `conflict`, `up-to-date` and `error` ignore every action but ERROR. */
  lemma TerminalIgnoresNonError(s: State, a: Action)
    requires IsTerminal(s.status) && !a.Fail?
    ensures Reduce(s, a) == s
  {
  }

  /** `checking` + GIT_CHECKED: a dirty tree blocks unless forced; off-main only warns. */
  lemma CheckedTransition(s: State, g: GitStatus)
    requires s.status == Checking
    ensures var r := Reduce(s, GitChecked(g));
      && (r.status == DirtyWarning <==> !g.isClean && !s.options.force)
      && (r.status == Fetching <==> g.isClean || s.options.force)
      && r.gitStatus == Some(g)
      && (r.branchWarning != "" <==> g.currentBranch != MAIN_BRANCH)
      && r == s.(status := r.status, gitStatus := Some(g), branchWarning := r.branchWarning)
  {
  }

  /** `fetching` + FETCHED: up to date iff no changes; rebase and clean always confirm a backup;
      otherwise skip-backup or force go straight to the preview. */
  lemma FetchedTransition(s: State, info: UpdateInfo, migration: Option<bool>)
    requires s.status == Fetching
    ensures var r := Reduce(s, Fetched(info, migration));
      && (r.status == UpToDate <==> !HasChanges(info))
      && r.updateInfo == Some(info)
      && (HasChanges(info) && (s.options.rebase || s.options.clean) ==> r.status == BackupConfirm)
      && (HasChanges(info) && !s.options.rebase && !s.options.clean ==>
            r.status == (if s.options.skipBackup || s.options.force then Preview else BackupConfirm))
      && (HasChanges(info) ==> r.needsMigration == (migration == Some(true)))
  {
  }

  /** Equal known versions mean up to date, whatever the commit counts say. */
  lemma SameVersionIsUpToDate(s: State, info: UpdateInfo, migration: Option<bool>)
    requires s.status == Fetching
    requires info.currentVersion == info.latestVersion && info.latestVersion != "unknown"
    ensures Reduce(s, Fetched(info, migration)).status == UpToDate
  {
  }

  /** A detected downgrade with local commits ahead is a change unless the versions match. */
  lemma DowngradeIsChange(info: UpdateInfo)
    requires info.isDowngrade && info.aheadCount > 0 && !VersionsMatch(info)
    ensures HasChanges(info)
  {
  }

  /** `backup-confirm`: confirm always backs up; skip reaches the preview only outside rebase and clean. */
  lemma BackupConfirmTransition(s: State)
    requires s.status == BackupConfirm
    ensures Reduce(s, ConfirmBackup) == s.(status := BackingUp)
    ensures Reduce(s, SkipBackup).status == Preview <==> !s.options.rebase && !s.options.clean
    ensures s.options.rebase || s.options.clean ==> Reduce(s, SkipBackup) == s
  {
  }

  /** `merging` + MERGED: conflict first, then failure (with a message), then clean-restore or install. */
  lemma MergedTransition(s: State, m: MergeResult)
    requires s.status == Merging
    ensures var r := Reduce(s, Merged(m));
      && (r.status == Conflict <==> m.hasConflict)
      && (r.status == Error <==> !m.hasConflict && !m.success)
      && (r.status == Error ==> r.error == MergeErrorText(m.error) && r.mergeResult == s.mergeResult)
      && (r.status == CleanRestoring <==> !m.hasConflict && m.success && s.options.clean)
      && (r.status == Installing <==> !m.hasConflict && m.success && !s.options.clean)
      && (r.status != Error ==> r.mergeResult == Some(m))
  {
  }

  // ---------------------------------------------------------------------------
  // Whole runs: a sequence of actions applied one after the other.

  /** The state after applying `acts` in order, starting from `s`. */
  function Run(s: State, acts: seq<Action>): State
    decreases |acts|
  {
    if acts == [] then s else Reduce(Run(s, acts[..|acts| - 1]), acts[|acts| - 1])
  }

  /** Running `a` and then `b` is running `a + b`. */
  lemma {:induction false} RunAppend(s: State, a: seq<Action>, b: seq<Action>)
    ensures Run(s, a + b) == Run(Run(s, a), b)
    decreases |b|
  {
    if b == [] {
      assert a + b == a;
    } else {
      assert (a + b)[..|a + b| - 1] == a + b[..|b| - 1];
      assert (a + b)[|a + b| - 1] == b[|b| - 1];
      RunAppend(s, a, b[..|b| - 1]);
    }
  }

  /** The options captured at the start never change during a run. */
  lemma {:induction false} RunKeepsOptions(s: State, acts: seq<Action>)
    ensures Run(s, acts).options == s.options
    decreases |acts|
  {
    if acts != [] {
      RunKeepsOptions(s, acts[..|acts| - 1]);
    }
  }

  /** A run that has left its starting status is further along the flow than where it started. */
  lemma {:induction false} RunClimbs(s: State, acts: seq<Action>)
    ensures Rank(s.status) <= Rank(Run(s, acts).status)
    ensures Run(s, acts).status != s.status ==> Rank(s.status) < Rank(Run(s, acts).status)
    decreases |acts|
  {
    if acts != [] {
      var p := Run(s, acts[..|acts| - 1]);
      RunClimbs(s, acts[..|acts| - 1]);
      var r := Reduce(p, acts[|acts| - 1]);
      if r != p {
        EdgeClimbs(p.status, r.status);
      }
    }
  }

  /** No cycles: once a run has left a status other than `error`, it never comes back to it. */
  lemma NoReturn(s: State, acts: seq<Action>, k: nat)
    requires k <= |acts|
    requires Run(s, acts[..k]).status != s.status
    ensures Run(s, acts).status != s.status
  {
    var m := Run(s, acts[..k]);
    RunClimbs(s, acts[..k]);
    assert acts == acts[..k] + acts[k..];
    RunAppend(s, acts[..k], acts[k..]);
    RunClimbs(m, acts[k..]);
  }

  /** Statuses at or after the preview that a successful backup must precede in rebase and clean mode. */
  predicate PastPreview(st: Status) {
    st == Preview || st == Merging || st == CleanRestoring || st == Installing || st == Done
      || st == Conflict
  }

  /** Rebase and clean mode force a backup: from the initial state, a run that reaches the preview
      or beyond has gone through BACKUP_DONE. */
  lemma {:induction false} ForcedBackup(options: Options, acts: seq<Action>)
    requires options.rebase || options.clean
    requires PastPreview(Run(InitialState(options), acts).status)
    ensures exists k :: 0 <= k < |acts| && acts[k].BackupDone?
    decreases |acts|
  {
    var init := InitialState(options);
    if acts == [] {
      assert false;
    } else {
      var before := acts[..|acts| - 1];
      var last := acts[|acts| - 1];
      var p := Run(init, before);
      RunKeepsOptions(init, before);
      if PastPreview(p.status) {
        ForcedBackup(options, before);
        var k :| 0 <= k < |before| && before[k].BackupDone?;
        assert acts[k] == before[k];
      } else {
        assert last.BackupDone?;
      }
    }
  }

  /** `clean-restoring` is only ever reached in clean mode. */
  lemma {:induction false} CleanRestoreOnlyInCleanMode(options: Options, acts: seq<Action>)
    requires Run(InitialState(options), acts).status == CleanRestoring
    ensures options.clean
    decreases |acts|
  {
    var init := InitialState(options);
    if acts != [] {
      var before := acts[..|acts| - 1];
      var p := Run(init, before);
      RunKeepsOptions(init, before);
      if p.status == CleanRestoring {
        CleanRestoreOnlyInCleanMode(options, before);
      }
    }
  }
}
