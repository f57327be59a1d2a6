/**
 * The git boundary of the update engine. The source runs `git` as a subprocess; here a
 * repository is an object whose HEAD and command log change as commands are issued, and whose
 * answers (exit status and output) come from an oracle indexed by the command's position in the
 * log. `git(args)` returns trimmed standard output or raises with the error text; an answer
 * of the oracle is already in that form (its output is the trimmed standard output);
 * `gitSafe(args)` returns the same output or null.
 */
module Gateway {
  import opened Wrappers
  import opened Text

  /** The git invocations the update engine issues. */
  datatype GitCmd =
      // queries
    | RevParseHead                           // rev-parse HEAD
    | RemoteGetUrl                           // remote get-url upstream
    | ShowRef(ref: string)                   // show-ref --verify <ref>
    | RevListCount(target: string)           // rev-list --left-right --count HEAD...<target>
    | Log(range: string)                     // log <range> --pretty=format:"%h|%s|%ar|%an" --no-merges
    | ShowManifest(rev: string)              // show <rev>:package.json
    | TagList                                // tag --sort=-creatordate --list "v*"
    | Status                                 // status --porcelain
    | DiffUnmerged                           // diff --name-only --diff-filter=U
    | ListFiles                              // ls-files
    | ListTree(rev: string)                  // ls-tree -r --name-only <rev>
      // updates
    | Rebase(onto: string)                   // rebase <onto>
    | CheckoutTree(rev: string)              // checkout <rev> -- .
    | Commit(message: string)                // commit -m <message>
    | MergeOurs(rev: string, message: string) // merge -s ours --no-ff --allow-unrelated-histories
    | Merge(rev: string, message: string)    // merge --no-ff --allow-unrelated-histories
    | Remove(paths: seq<string>)             // rm --quiet -- <paths>
    | AddAll                                 // add -A
    | CommitAmend                            // commit --amend --no-edit
    | CommitNoEdit                           // commit --no-edit
    | CheckoutOurs(path: string)             // checkout --ours -- <path>
    | AddPath(path: string)                  // add -- <path>
    | CheckoutMerge(path: string)            // checkout -m -- <path>
    | ResetHard(sha: string)                 // reset --hard <sha>

  /** A command's answer: whether it exited with status 0, and its standard output (on success) or error text. */
  datatype Reply = Reply(ok: bool, out: string)

  /** One issued command and whether it succeeded. */
  datatype Run = Run(cmd: GitCmd, ok: bool)

  /** Commands that, when they succeed, leave HEAD on a commit they created. */
  predicate MakesCommit(c: GitCmd) {
    c.Rebase? || c.Commit? || c.MergeOurs? || c.Merge? || c.CommitAmend? || c.CommitNoEdit?
  }

  /** A commit, named by its id. */
  datatype CommitId = CommitId(sha: string)

  /**
   * HEAD after issuing `c` from `head`: a failed command leaves it, a successful hard reset moves
   * it to the named commit, a successful commit-creating command to the commit `created`.
   */
  function NextHead(c: GitCmd, ok: bool, head: CommitId, created: CommitId): CommitId {
    if !ok then head
    else if c.ResetHard? then CommitId(c.sha)
    else if MakesCommit(c) then created
    else head
  }

  /** The commands of a log, in order. */
  function Cmds(log: seq<Run>): seq<GitCmd> {
    if log == [] then [] else Cmds(log[..|log| - 1]) + [log[|log| - 1].cmd]
  }

  /** The commands of two logs one after the other are those of each. */
  lemma {:induction false} CmdsAppend(a: seq<Run>, b: seq<Run>)
    ensures Cmds(a + b) == Cmds(a) + Cmds(b)
    decreases |b|
  {
    if b != [] {
      var b0 := b[..|b| - 1];
      CmdsAppend(a, b0);
      assert (a + b)[..|a + b| - 1] == a + b0;
    } else {
      assert a + b == a;
    }
  }

  /**
   * Read-only access to a repository that is not changed while it is queried: the `gitSafe`
   * answer (trimmed output, or None when the command fails) of each query.
   */
  type Query = GitCmd -> Option<string>

  /** JavaScript truthiness of a `gitSafe` answer: present and non-empty. */
  predicate Truthy(o: Option<string>) {
    o.Some? && o.value != ""
  }

  /** `gitSafe(...) || fallback`. */
  function OrElse(o: Option<string>, fallback: string): (r: string)
    ensures Truthy(o) ==> r == o.value
    ensures !Truthy(o) ==> r == fallback
  {
    if Truthy(o) then o.value else fallback
  }

  /** The non-blank trimmed lines of `answer || ''`: a failed command contributes none. */
  function AnswerLines(answer: Option<string>): seq<string> {
    if answer.Some? then NonBlankLines(answer.value) else []
  }

  /** `AnswerLines` is `NonBlankLines` of the answer with the empty string as fallback. */
  lemma AnswerLinesOrEmpty(answer: Option<string>)
    ensures AnswerLines(answer) == NonBlankLines(OrElse(answer, ""))
  {
    match answer
    case None => NonBlankLinesOfEmpty();
    case Some(v) => assert OrElse(answer, "") == v;
  }

  /** The run of `c` when it is issued at position `k` of `repo`'s log. */
  function RunAt(repo: Repo, k: nat, c: GitCmd): Run {
    Run(c, repo.reply(k, c).ok)
  }

  /** The `gitSafe` view of a reply: the output on success, None on failure. */
  function Answer(r: Reply): Option<string> {
    if r.ok then Some(r.out) else None
  }

  class Repo {
    /** The commit HEAD points at. */
    var head: CommitId
    /** Every command issued so far, with its outcome. */
    var log: seq<Run>
    /** The answer the repository gives to the command issued at a given position of the log. */
    const script: seq<Reply>
    /** The id of the commit created by a successful commit-creating command at a given position. */
    const commits: seq<string>

    constructor (head0: CommitId, script: seq<Reply>, commits: seq<string>)
      ensures head == head0 && log == []
      ensures this.script == script && this.commits == commits
    {
      head := head0;
      log := [];
      this.script := script;
      this.commits := commits;
    }

    /** Every logged outcome is the repository's answer to that command at that position. */
    function reply(k: nat, c: GitCmd): Reply {
      if k < |script| then script[k] else Reply(false, "")
    }

    function newCommit(k: nat): CommitId {
      CommitId(if k < |commits| then commits[k] else "")
    }

    ghost predicate Consistent()
      reads this
    {
      forall k :: 0 <= k < |log| ==> log[k].ok == reply(k, log[k].cmd).ok
    }

    /**
     * `git(args)`: issue `c`. On success `out` is the output (HEAD itself for `rev-parse HEAD`);
     * on failure it is the error text. HEAD moves only when the command succeeds: to the target
     * of a hard reset, or to the commit a commit-creating command made.
     */
    method Git(c: GitCmd) returns (ok: bool, out: string)
      requires Consistent()
      modifies this
      ensures Consistent()
      ensures ok == reply(|old(log)|, c).ok
      ensures out == if ok && c.RevParseHead? then old(head).sha else reply(|old(log)|, c).out
      ensures log == old(log) + [Run(c, ok)]
      ensures head == NextHead(c, ok, old(head), newCommit(|old(log)|))
      ensures !c.ResetHard? && !MakesCommit(c) ==> head == old(head)
    {
      var r := reply(|log|, c);
      ok := r.ok;
      out := if ok && c.RevParseHead? then head.sha else r.out;
      head := NextHead(c, ok, head, newCommit(|log|));
      log := log + [Run(c, ok)];
    }
  
    /**
     * `gitSafe(args)`: issue a command that does not read HEAD and turn a failure into None.
     * Its effect on HEAD and on the log is that of `Git`.
     */
    method GitSafe(c: GitCmd) returns (o: Option<string>)
      requires Consistent() && !c.RevParseHead?
      modifies this
      ensures Consistent()
      ensures o == Answer(reply(|old(log)|, c))
      ensures log == old(log) + [Run(c, o.Some?)]
      ensures head == NextHead(c, o.Some?, old(head), newCommit(|old(log)|))
      ensures !c.ResetHard? && !MakesCommit(c) ==> head == old(head)
    {
      var ok, out := Git(c);
      o := if ok then Some(out) else None;
    }
  }
}
