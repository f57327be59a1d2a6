/**
 * The pure helpers of the update screen: the label of the update mode, the confirmation
 * question, the routing of the backup choice to actions, and when the preview confirms itself.
 */
module UpdateView {
  import opened Wrappers
  import opened Text
  import Gateway
  import opened UpdateTypes
  import opened UpdateReducer

  /** The kind of update a run performs, in the order in which the screen checks the options. */
  datatype Mode = RebaseMode | CleanMode | DowngradeMode | RegularMode

  /** Rebase wins over clean, clean over a downgrade, and anything else is a plain update. */
  function ModeOf(rebase: bool, clean: bool, isDowngrade: bool): (m: Mode)
    ensures m == RebaseMode <==> rebase
    ensures m == CleanMode <==> !rebase && clean
    ensures m == DowngradeMode <==> !rebase && !clean && isDowngrade
  {
    if rebase then RebaseMode else if clean then CleanMode else if isDowngrade then DowngradeMode else RegularMode
  }

  /** `getModeLabel`: the name of the operation shown while it runs. */
  function ModeLabel(rebase: bool, clean: bool, isDowngrade: bool): string {
    if rebase then "Rebase"
    else if clean then "Clean 模式更新"
    else if isDowngrade then "版本回退"
    else "更新"
  }

  /** The label names the mode: two option sets get the same label exactly when they select the same mode. */
  lemma ModeLabelNamesMode(rebase: bool, clean: bool, isDowngrade: bool, rebase': bool, clean': bool, isDowngrade': bool)
    ensures ModeLabel(rebase, clean, isDowngrade) == ModeLabel(rebase', clean', isDowngrade')
      <==> ModeOf(rebase, clean, isDowngrade) == ModeOf(rebase', clean', isDowngrade')
  {
    var labels := ["Rebase", "Clean 模式更新", "版本回退", "更新"];
    assert labels[0] != labels[1] && labels[0] != labels[2] && labels[0] != labels[3] by {
      assert labels[0][0] == 'R' && labels[1][0] == 'C' && labels[2][0] == '版' && labels[3][0] == '更';
    }
    assert labels[1] != labels[2] && labels[1] != labels[3] && labels[2] != labels[3] by {
      assert labels[1][0] == 'C' && labels[2][0] == '版' && labels[3][0] == '更';
    }
  }

  /** What the confirmation question points at: the chosen version, or the latest one. */
  function ConfirmTarget(targetTag: Option<string>, latestVersion: string): string {
    if Gateway.Truthy(targetTag) then "版本 v" + latestVersion else "最新版本"
  }

  /** The question that ends every rebase confirmation. */
  const REWRITE_WARNING: string := "？（历史将被重写）"

  /** `getConfirmMessage`: the question asked before the merge starts. */
  function ConfirmMessage(opts: Options, latestVersion: string, isDowngrade: bool): string {
    var target := ConfirmTarget(opts.targetTag, latestVersion);
    if opts.rebase then "确认执行 rebase 到" + (if Gateway.Truthy(opts.targetTag) then target else "上游最新") + REWRITE_WARNING
    else if opts.clean then "确认执行 clean 模式更新到" + target + "？"
    else if isDowngrade then "确认回退到版本 v" + latestVersion + "？"
    else "确认更新到" + target + "？"
  }

  /**
   * The question depends on the options only through the mode and whether a tag was given:
   * it follows the same precedence as the label.
   */
  lemma ConfirmFollowsMode(opts: Options, opts': Options, latestVersion: string, isDowngrade: bool, isDowngrade': bool)
    requires ModeOf(opts.rebase, opts.clean, isDowngrade) == ModeOf(opts'.rebase, opts'.clean, isDowngrade')
    requires Gateway.Truthy(opts.targetTag) == Gateway.Truthy(opts'.targetTag)
    ensures ConfirmMessage(opts, latestVersion, isDowngrade) == ConfirmMessage(opts', latestVersion, isDowngrade')
  {
  }

  /** Only a rebase warns that history will be rewritten. */
  lemma RewriteWarningIffRebase(opts: Options, latestVersion: string, isDowngrade: bool)
    ensures EndsWith(ConfirmMessage(opts, latestVersion, isDowngrade), REWRITE_WARNING) <==> opts.rebase
  {
    var r := ConfirmMessage(opts, latestVersion, isDowngrade);
    if !opts.rebase {
      assert r[|r| - 1] == '？';
      assert REWRITE_WARNING[|REWRITE_WARNING| - 1] == '）';
    }
  }

  /**
   * A rebase without a tag names the upstream head rather than a version; a tag names
   * `版本 v<latestVersion>`.
   */
  lemma RebaseTarget(opts: Options, latestVersion: string, isDowngrade: bool)
    requires opts.rebase
    ensures !Gateway.Truthy(opts.targetTag) ==> ConfirmMessage(opts, latestVersion, isDowngrade) == "确认执行 rebase 到上游最新" + REWRITE_WARNING
    ensures Gateway.Truthy(opts.targetTag) ==>
      ConfirmMessage(opts, latestVersion, isDowngrade) == "确认执行 rebase 到版本 v" + latestVersion + REWRITE_WARNING
  {
  }

  /**
   * The version appears in the question only when a tag was given or the run is a plain
   * downgrade: without them the question does not depend on the version at all.
   */
  lemma VersionNamedOnlyWhenChosen(opts: Options, v: string, v': string, isDowngrade: bool)
    requires !Gateway.Truthy(opts.targetTag)
    requires ModeOf(opts.rebase, opts.clean, isDowngrade) != DowngradeMode
    ensures ConfirmMessage(opts, v, isDowngrade) == ConfirmMessage(opts, v', isDowngrade)
  {
  }

  /** The target of the question is `版本 v<latestVersion>` exactly when a tag was given. */
  lemma TargetNamesVersionIffTag(targetTag: Option<string>, latestVersion: string)
    ensures ConfirmTarget(targetTag, latestVersion) == "版本 v" + latestVersion <==> Gateway.Truthy(targetTag)
  {
    if !Gateway.Truthy(targetTag) {
      var r := "版本 v" + latestVersion;
      assert r[0] == '版' && "最新版本"[0] == '最';
    }
  }

  /** Where the backup choice leads. */
  datatype BackupChoice = BackUp | Skip | Cancel

  /** `handleBackupSelect`: `backup` backs up, `skip` skips, any other value cancels. */
  function BackupChoiceOf(value: string): (c: BackupChoice)
    ensures c == BackUp <==> value == "backup"
    ensures c == Skip <==> value == "skip"
    ensures c == Cancel <==> value != "backup" && value != "skip"
  {
    if value == "backup" then BackUp else if value == "skip" then Skip else Cancel
  }

  /** The message of a failed backup. */
  function BackupFailure(reason: string): (e: string)
    ensures StartsWith(e, "备份失败: ")
  {
    "备份失败: " + reason
  }

  /**
   * The actions a backup choice dispatches. Backing up dispatches BACKUP_CONFIRM and then, from
   * the outcome of the backup (the base name of the archive, or the reason it failed),
   * BACKUP_DONE or ERROR; skipping dispatches BACKUP_SKIP; cancelling dispatches nothing.
   */
  function BackupSelectActions(value: string, backup: Result<string, string>): seq<Action> {
    match BackupChoiceOf(value)
    case BackUp =>
      [ConfirmBackup] + (if backup.Ok? then [BackupDone(backup.value)] else [Fail(BackupFailure(backup.error))])
    case Skip => [SkipBackup]
    case Cancel => []
  }

  /**
   * From `backup-confirm`: a backup that succeeds reaches the preview with its archive recorded,
   * one that fails ends in `error`, a skip reaches the preview only outside rebase and clean
   * mode, and a cancel leaves the state as it is.
   */
  lemma BackupSelectOutcome(s: State, value: string, backup: Result<string, string>)
    requires s.status == BackupConfirm
    ensures var r := Run(s, BackupSelectActions(value, backup));
      && (value == "backup" && backup.Ok? ==> r == s.(status := Preview, backupFile := backup.value))
      && (value == "backup" && backup.Err? ==> r == s.(status := Error, error := BackupFailure(backup.error)))
      && (value == "skip" ==> (r.status == Preview <==> !s.options.rebase && !s.options.clean))
      && (value != "backup" && value != "skip" ==> r == s)
  {
    var acts := BackupSelectActions(value, backup);
    if value == "backup" {
      var backingUp := Reduce(s, ConfirmBackup);
      assert backingUp == s.(status := BackingUp);
      assert Run(s, acts[..1]) == backingUp by {
        assert acts[..1][..0] == [];
      }
      assert acts[..|acts| - 1] == acts[..1];
    } else if value == "skip" {
      assert acts == [SkipBackup];
      assert acts[..0] == [];
    } else {
      assert acts == [];
    }
  }

  /** `status === 'preview' && force && !checkOnly && !dryRun`: the preview confirms itself. */
  predicate AutoConfirms(s: State) {
    s.status == Preview && s.options.force && !s.options.checkOnly && !s.options.dryRun
  }

  /** A check-only or dry run finishes at the preview. */
  predicate FinishesAtPreview(s: State) {
    s.status == Preview && (s.options.checkOnly || s.options.dryRun)
  }

  /**
   * A forced run never waits at the preview: either it confirms itself and starts merging, or
   * it is a check-only or dry run and finishes there; never both.
   */
  lemma AutoConfirmStartsMerge(s: State)
    ensures AutoConfirms(s) ==> Reduce(s, ConfirmUpdate) == s.(status := Merging)
    ensures s.status == Preview && s.options.force ==> AutoConfirms(s) != FinishesAtPreview(s)
    ensures !s.options.force ==> !AutoConfirms(s)
  {
  }
}
