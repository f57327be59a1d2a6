/**
 * The effect runner of the update flow: for the statuses that do work (`checking`, `fetching`,
 * `merging`, `clean-restoring`, `installing`), the sequence of calls the effect makes and the one
 * action it dispatches at the end. The deferred effects keep a `cancelled` flag that the cleanup
 * they return sets; once it is set their pending work neither touches the repository nor
 * dispatches.
 */
module UpdateEffects {
  import opened Wrappers
  import opened UpdateTypes
  import opened Text
  import opened Gateway
  import opened Tags
  import opened Remote
  import opened Conflicts
  import opened MergeStrategies
  import opened MergeFlow
  import opened FetchInfo
  import opened UpdateReducer

  const CLEAN_WITH_REBASE: string := "--clean 和 --rebase 不能同时使用"
  const MISMATCH_LEAD: string := "upstream 已存在但指向 "
  const MISMATCH_HINT: string := "，请手动调整为 "
  const CHECK_MODE_NEEDS_REMOTE: string := "检查模式不会修改仓库，请先手动添加 upstream 或使用非 --check 模式"
  const ADD_REMOTE_FAILED: string := "无法添加 upstream remote"
  const CHECK_MODE_NEEDS_FETCH: string := "检查模式不会执行 git fetch，请先手动执行 git fetch upstream"
  const FETCH_FAILED: string := "无法获取 upstream 更新，请检查网络连接"
  const NO_BACKUP: string := "Clean 模式需要备份文件，但未找到备份"
  const RESTORE_FAILED_LEAD: string := "还原用户内容失败: "
  const INSTALL_FAILED_LEAD: string := "依赖安装失败: "
  const TAGS_HINT_LEAD: string := "\n可用的版本: "
  /** How many recent tags the missing-tag error offers. */
  const RECENT_TAG_LIMIT: nat := 5

  /** The error of an upstream remote that points elsewhere: the URL it has, then the one it should have. */
  function MismatchMessage(currentUrl: string): (m: string)
    ensures StartsWith(m, MISMATCH_LEAD + currentUrl)
    ensures EndsWith(m, UPSTREAM_URL)
  {
    var m := MISMATCH_LEAD + currentUrl + MISMATCH_HINT + UPSTREAM_URL;
    assert m[..|MISMATCH_LEAD + currentUrl|] == MISMATCH_LEAD + currentUrl;
    assert m[|m| - |UPSTREAM_URL|..] == UPSTREAM_URL;
    m
  }

  /** `parts.join(sep)`. */
  function JoinWith(parts: seq<string>, sep: string): string {
    if parts == [] then ""
    else if |parts| == 1 then parts[0]
    else parts[0] + sep + JoinWith(parts[1..], sep)
  }

  /** The error of a target tag that does not exist, with the recent tags listed when there are any. */
  function TagMissingMessage(tag: string, recentTags: seq<string>): (m: string)
    ensures StartsWith(m, "Tag \"" + tag + "\" 不存在")
    ensures recentTags == [] <==> m == "Tag \"" + tag + "\" 不存在"
  {
    var head := "Tag \"" + tag + "\" 不存在";
    var hint := if |recentTags| > 0 then TAGS_HINT_LEAD + JoinWith(recentTags, ", ") else "";
    assert (head + hint)[..|head|] == head;
    head + hint
  }

  /**
   * What the operations `fetching` may call answer, in one run: whether upstream's tracking ref
   * exists, whether `fetchUpstream` succeeds, whether the target tag exists, the recent tags,
   * `getUpdateInfo` (or the error it throws) and `hasUpstreamMergeHistory`.
   */
  datatype FetchProbe = FetchProbe(
    trackingRef: bool,
    fetchOk: bool,
    tagExists: bool,
    recentTags: seq<string>,
    info: Result<UpdateInfo, string>,
    mergeHistory: bool)

  /** The probe a repository whose read-only queries `q` answers gives, with the update info it reports. */
  function RepositoryProbe(q: Query, opts: Options, fetchOk: bool, currentVersion: Result<string, string>,
                           mergeHistory: bool, read: ManifestReader): (p: FetchProbe)
    ensures |p.recentTags| <= RECENT_TAG_LIMIT
    ensures p.info.Ok? <==> currentVersion.Ok?
    ensures p.info.Ok? ==> p.info.value.currentVersion == currentVersion.value
    ensures p.info.Ok? && opts.clean ==> !p.info.value.isDowngrade || TagGiven(opts.targetTag)
  {
    var recent := ListRecentTags(q(TagList), RECENT_TAG_LIMIT);
    RecentTagsBounded(q(TagList), RECENT_TAG_LIMIT);
    FetchProbe(
      HasUpstreamTrackingRef(q),
      fetchOk,
      TagGiven(opts.targetTag) && TagExists(q, opts.targetTag.value),
      recent,
      if currentVersion.Ok? then Ok(GetUpdateInfo(q, opts.targetTag, currentVersion.value, read))
      else Err(currentVersion.error),
      mergeHistory)
  }

  /** The repository changes an effect makes besides the merge itself. */
  datatype Mutation = AddUpstreamRemote | FetchUpstream | InstallDeps

  /** The rollback anchor `clean-restoring` hands to `cleanRestore`: the merge result's, if there is one. */
  function AnchorOf(s: State): Option<string> {
    if s.mergeResult.Some? then s.mergeResult.value.preCleanSha else None
  }

  /** The options `merging` passes to `mergeUpstream`; an unknown downgrade flag is false. */
  function MergeOptionsOf(s: State): (o: MergeOptions)
    ensures o.isDowngrade <==> s.updateInfo.Some? && s.updateInfo.value.isDowngrade
    ensures o.targetTag == s.options.targetTag && o.rebase == s.options.rebase && o.clean == s.options.clean
  {
    MergeOptions(s.options.targetTag, s.updateInfo.Some? && s.updateInfo.value.isDowngrade,
                 s.options.rebase, s.options.clean)
  }

  /**
   * One run of an effect, together with the actions it has dispatched and the repository changes
   * it has made. `cancelled` is the flag the returned cleanup sets.
   */
  class EffectRun {
    var dispatched: seq<Action>
    var cancelled: bool
    var mutations: seq<Mutation>

    constructor ()
      ensures dispatched == [] && !cancelled && mutations == []
    {
      dispatched := [];
      cancelled := false;
      mutations := [];
    }

    /** `dispatch(action)`. */
    method Dispatch(a: Action)
      modifies this
      ensures dispatched == old(dispatched) + [a]
      ensures cancelled == old(cancelled) && mutations == old(mutations)
    {
      dispatched := dispatched + [a];
    }

    /** The cleanup the deferred effects return. */
    method Cleanup()
      modifies this
      ensures cancelled
      ensures dispatched == old(dispatched) && mutations == old(mutations)
    {
      cancelled := true;
    }

    /**
     * `checking`: refuse `--clean` with `--rebase` before asking anything; otherwise take the
     * status snapshot (`probe`, or the error it threw) and make sure the upstream remote exists
     * with `ensureUpstreamRemote`, allowing it to be added only outside check mode. `remoteUrl`
     * is the answer of `git remote get-url upstream` and `addOk` whether adding would succeed.
     */
    method CheckingEffect(opts: Options, probe: Result<GitStatus, string>, remoteUrl: Option<string>, addOk: bool, parse: UrlParser)
      returns (sent: Action)
      modifies this
      ensures cancelled == old(cancelled)
      ensures dispatched == old(dispatched) + [sent]
      ensures Expects(Checking, sent) || sent.Fail?
      ensures opts.clean && opts.rebase ==> sent == Fail(CLEAN_WITH_REBASE)
      ensures !(opts.clean && opts.rebase) && probe.Err? ==> sent == Fail(probe.error)
      ensures var o := EnsureUpstreamRemote(remoteUrl, !opts.checkOnly, addOk, parse).result;
        var asked := !(opts.clean && opts.rebase) && probe.Ok?;
        && (sent.GitChecked? <==> asked && o.success)
        && (sent.GitChecked? ==> sent.gitStatus == probe.value)
        && (asked && !o.success && o.reason == Some(Mismatch) ==>
              sent == Fail(MismatchMessage(OrElse(o.currentUrl, "unknown"))))
        && (asked && !o.success && o.reason == Some(Missing) && opts.checkOnly ==>
              sent == Fail(CHECK_MODE_NEEDS_REMOTE))
        && (asked && !o.success && o.reason != Some(Mismatch) && !(o.reason == Some(Missing) && opts.checkOnly) ==>
              sent == Fail(ADD_REMOTE_FAILED))
      ensures var asked := !(opts.clean && opts.rebase) && probe.Ok?;
        asked && Truthy(remoteUrl) && NormalizeRemoteUrl(UPSTREAM_URL, parse) != NormalizeRemoteUrl(remoteUrl.value, parse) ==>
          sent == Fail(MismatchMessage(remoteUrl.value))
      ensures mutations == old(mutations) +
        (if !(opts.clean && opts.rebase) && probe.Ok? && !Truthy(remoteUrl) && !opts.checkOnly
         then [AddUpstreamRemote] else [])
      ensures opts.checkOnly ==> mutations == old(mutations)
    {
      if opts.clean && opts.rebase {
        sent := Fail(CLEAN_WITH_REBASE);
      } else if probe.Err? {
        sent := Fail(probe.error);
      } else {
        var upstream := EnsureUpstreamRemote(remoteUrl, !opts.checkOnly, addOk, parse);
        if upstream.addAttempted {
          mutations := mutations + [AddUpstreamRemote];
        }
        var result := upstream.result;
        if !result.success {
          if result.reason == Some(Mismatch) {
            sent := Fail(MismatchMessage(OrElse(result.currentUrl, "unknown")));
          } else if result.reason == Some(Missing) && opts.checkOnly {
            sent := Fail(CHECK_MODE_NEEDS_REMOTE);
          } else {
            sent := Fail(ADD_REMOTE_FAILED);
          }
        } else {
          sent := GitChecked(probe.value);
        }
      }
      Dispatch(sent);
    }

    /**
     * `fetching`: in check mode require upstream's tracking ref and fetch nothing, otherwise
     * fetch; then make sure a given target tag exists, read the update information and report
     * whether a first-merge migration hint is due (never for rebase or clean).
     */
    method FetchingEffect(opts: Options, p: FetchProbe) returns (sent: Action)
      modifies this
      ensures cancelled == old(cancelled)
      ensures dispatched == old(dispatched) + [sent]
      ensures Expects(Fetching, sent) || sent.Fail?
      ensures mutations == old(mutations) + (if opts.checkOnly then [] else [FetchUpstream])
      ensures var ready := if opts.checkOnly then p.trackingRef else p.fetchOk;
        && (!ready ==> sent == Fail(if opts.checkOnly then CHECK_MODE_NEEDS_FETCH else FETCH_FAILED))
        && (ready && TagGiven(opts.targetTag) && !p.tagExists ==>
              sent == Fail(TagMissingMessage(opts.targetTag.value, p.recentTags)))
        && (ready && (TagGiven(opts.targetTag) ==> p.tagExists) && p.info.Err? ==> sent == Fail(p.info.error))
        && (sent.Fetched? <==> ready && (TagGiven(opts.targetTag) ==> p.tagExists) && p.info.Ok?)
      ensures sent.Fetched? ==> sent.info == p.info.value
      ensures sent.Fetched? ==> sent.needsMigration == Some(!opts.clean && !opts.rebase && !p.mergeHistory)
      ensures sent.Fetched? && (opts.clean || opts.rebase) ==> sent.needsMigration == Some(false)
    {
      if opts.checkOnly {
        if !p.trackingRef {
          sent := Fail(CHECK_MODE_NEEDS_FETCH);
          Dispatch(sent);
          return;
        }
      } else {
        mutations := mutations + [FetchUpstream];
        if !p.fetchOk {
          sent := Fail(FETCH_FAILED);
          Dispatch(sent);
          return;
        }
      }
      if TagGiven(opts.targetTag) && !p.tagExists {
        sent := Fail(TagMissingMessage(opts.targetTag.value, p.recentTags));
        Dispatch(sent);
        return;
      }
      if p.info.Err? {
        sent := Fail(p.info.error);
        Dispatch(sent);
        return;
      }
      var needsMigration := !opts.clean && !opts.rebase && !p.mergeHistory;
      sent := Fetched(p.info.value, Some(needsMigration));
      Dispatch(sent);
    }

    /**
     * The deferred task of `merging`: unless cancelled, run `mergeUpstream` with the options of
     * the run and dispatch MERGED with its result. `sent` is the dispatched action, None when
     * the task found the run cancelled.
     */
    method MergingTask(repo: Repo, s: State, read: ManifestReader) returns (sent: Option<Action>)
      requires repo.Consistent()
      modifies this, repo
      ensures repo.Consistent()
      ensures cancelled == old(cancelled) && mutations == old(mutations)
      ensures sent.None? <==> old(cancelled)
      ensures sent.None? ==> dispatched == old(dispatched) && repo.log == old(repo.log) && repo.head == old(repo.head)
      ensures sent.Some? ==> dispatched == old(dispatched) + [sent.value] && Expects(Merging, sent.value)
      ensures sent.Some? ==> WellFormed(sent.value.result)
      ensures sent.Some? && MergeOptionsOf(s).isDowngrade ==> !sent.value.result.hasConflict
      ensures sent.Some? && sent.value.result.preCleanSha.Some? ==>
        && s.options.clean && !s.options.rebase
        && sent.value.result.preCleanSha.value == old(repo.head).sha
        && |repo.log| > 0 && repo.head == repo.newCommit(|repo.log| - 1)
    {
      if cancelled {
        return None;
      }
      var r := MergeUpstream(repo, MergeOptionsOf(s), read);
      Dispatch(Merged(r));
      sent := Some(Merged(r));
    }

    /**
     * The deferred task of `clean-restoring`: unless cancelled, refuse to go on without a backup
     * file; otherwise restore it (`restore` gives the restored paths or the error the restore
     * throws) and amend, rolling back to the merge result's anchor when that fails.
     */
    method CleanRestoringTask(repo: Repo, s: State, restore: string -> Result<seq<string>, string>)
      returns (sent: Option<Action>)
      requires repo.Consistent()
      modifies this, repo
      ensures repo.Consistent()
      ensures cancelled == old(cancelled) && mutations == old(mutations)
      ensures sent.None? <==> old(cancelled)
      ensures sent.None? ==> dispatched == old(dispatched)
      ensures sent.None? || s.backupFile == "" ==> repo.log == old(repo.log) && repo.head == old(repo.head)
      ensures sent.Some? ==> dispatched == old(dispatched) + [sent.value]
      ensures sent.Some? ==> Expects(CleanRestoring, sent.value) || sent.value.Fail?
      ensures sent.Some? && s.backupFile == "" ==> sent.value == Fail(NO_BACKUP)
      ensures sent.Some? && s.backupFile != "" && restore(s.backupFile).Err? ==>
        sent.value == Fail(RESTORE_FAILED_LEAD + restore(s.backupFile).error)
      ensures sent.Some? && sent.value.CleanRestored? ==>
        && s.backupFile != "" && restore(s.backupFile).Ok?
        && sent.value.restoredFiles == restore(s.backupFile).value
        && |repo.log| > 0 && repo.head == repo.newCommit(|repo.log| - 1)
      ensures sent.Some? && s.backupFile != "" && sent.value.Fail? ==>
        && StartsWith(sent.value.error, RESTORE_FAILED_LEAD)
        && (!Truthy(AnchorOf(s)) ==> repo.head == old(repo.head))
        && (Truthy(AnchorOf(s)) && |repo.log| > 0 && repo.reply(|repo.log| - 1, ResetHard(AnchorOf(s).value)).ok ==>
              repo.head == CommitId(AnchorOf(s).value))
    {
      if cancelled {
        return None;
      }
      var a: Action;
      if s.backupFile == "" {
        a := Fail(NO_BACKUP);
      } else {
        var r := CleanRestore(repo, restore(s.backupFile), AnchorOf(s));
        if r.Ok? {
          a := CleanRestored(r.value);
        } else {
          a := Fail(RESTORE_FAILED_LEAD + r.error);
          assert (RESTORE_FAILED_LEAD + r.error)[..|RESTORE_FAILED_LEAD|] == RESTORE_FAILED_LEAD;
        }
      }
      Dispatch(a);
      sent := Some(a);
    }

    /** `installing`, as it starts: the dependency install is launched at once. */
    method InstallingEffect()
      modifies this
      ensures mutations == old(mutations) + [InstallDeps]
      ensures dispatched == old(dispatched) && cancelled == old(cancelled)
    {
      mutations := mutations + [InstallDeps];
    }

    /**
     * `installing`, when the install settles (`failure` is None on success, else its error
     * text): unless cancelled, dispatch INSTALLED or the install error.
     */
    method InstallSettled(failure: Option<string>) returns (sent: Option<Action>)
      modifies this
      ensures cancelled == old(cancelled) && mutations == old(mutations)
      ensures sent.None? <==> old(cancelled)
      ensures sent.None? ==> dispatched == old(dispatched)
      ensures sent.Some? ==> dispatched == old(dispatched) + [sent.value]
      ensures sent.Some? ==> Expects(Installing, sent.value) || sent.value.Fail?
      ensures sent.Some? ==> (sent.value == Installed <==> failure.None?)
      ensures sent.Some? && failure.Some? ==> sent.value == Fail(INSTALL_FAILED_LEAD + failure.value)
    {
      if cancelled {
        return None;
      }
      var a := if failure.Some? then Fail(INSTALL_FAILED_LEAD + failure.value) else Installed;
      Dispatch(a);
      sent := Some(a);
    }
  }

  /** The statuses that run an effect. */
  predicate HasEffect(st: Status) {
    st == Checking || st == Fetching || st == Merging || st == CleanRestoring || st == Installing
  }

  /**
   * Whatever an effect dispatches moves the flow on: an action its status expects, or ERROR,
   * never leaves the state on that status.
   */
  lemma DispatchMovesOn(s: State, a: Action)
    requires HasEffect(s.status)
    requires Expects(s.status, a) || a.Fail?
    ensures Reduce(s, a).status != s.status
  {
    if !a.Fail? {
      ActionMovesIffExpected(s, a);
    }
  }
}
