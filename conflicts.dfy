/**
 * Which conflicted paths belong to the user and which to the theme, which conflict files git
 * reports, which tracked files a clean update deletes, and how a regular merge's conflicts are
 * settled once user files have been resolved in favour of the local side.
 */
module Conflicts {
  import opened Wrappers
  import opened Text
  import opened UpdateTypes
  import opened BackupItems
  import opened Gateway

  /**
   * The project paths of the required backup items, in table order: the user-owned part of the
   * tree (`UserContentIsRequired` ties the list to the backup table).
   */
  const USER_CONTENT_PREFIXES: seq<string> := ["src/content/blog", "config/site.yaml", "src/pages", "public/img", ".env"]

  /** `p` is the path `prefix` itself or lies under it as a directory. */
  predicate UnderPrefix(p: string, prefix: string) {
    p == prefix || StartsWith(p, prefix + "/")
  }

  /** `isUserContent`: the path is, or lies under, one of the user-owned paths. */
  predicate IsUserContent(p: string) {
    UnderAny(p, USER_CONTENT_PREFIXES)
  }

  /** `prefixes.some((prefix) => p === prefix || p.startsWith(prefix + '/'))`. */
  predicate UnderAny(p: string, prefixes: seq<string>) {
    prefixes != [] && (UnderPrefix(p, prefixes[0]) || UnderAny(p, prefixes[1..]))
  }

  /** A path that is not user content belongs to the theme. */
  predicate IsThemeFile(p: string) {
    !IsUserContent(p)
  }

  /** The user-owned paths are the project paths of the required backup items, in table order. */
  lemma UserContentIsRequired()
    ensures USER_CONTENT_PREFIXES == RequiredSources(BACKUP_ITEMS)
  {
    RequiredItems();
  }

  /** User content is exactly what lies under the five required backup paths. */
  lemma UserContentPaths(p: string)
    ensures IsUserContent(p) <==>
      || UnderPrefix(p, "src/content/blog")
      || UnderPrefix(p, "config/site.yaml")
      || UnderPrefix(p, "src/pages")
      || UnderPrefix(p, "public/img")
      || UnderPrefix(p, ".env")
  {
    UnderOneOfFive(p, USER_CONTENT_PREFIXES, "src/content/blog", "config/site.yaml", "src/pages", "public/img", ".env");
  }

  /** `UnderAny` is `.some`: some prefix of the list has the path under it. */
  lemma {:induction false} UnderAnySome(p: string, prefixes: seq<string>)
    ensures UnderAny(p, prefixes) <==> exists prefix :: prefix in prefixes && UnderPrefix(p, prefix)
  {
    if prefixes != [] {
      assert prefixes == [prefixes[0]] + prefixes[1..];
      UnderAnySome(p, prefixes[1..]);
    }
  }

  lemma UnderOneOfFive(p: string, prefixes: seq<string>, a: string, b: string, c: string, d: string, e: string)
    requires prefixes == [a, b, c, d, e]
    ensures UnderAny(p, prefixes) <==>
      UnderPrefix(p, a) || UnderPrefix(p, b) || UnderPrefix(p, c) || UnderPrefix(p, d) || UnderPrefix(p, e)
  {
    UnderAnySome(p, prefixes);
    if UnderPrefix(p, a) || UnderPrefix(p, b) || UnderPrefix(p, c) || UnderPrefix(p, d) || UnderPrefix(p, e) {
      assert a == prefixes[0] && b == prefixes[1] && c == prefixes[2] && d == prefixes[3] && e == prefixes[4];
    }
  }

  /** A path merely sharing a user path's first characters is not user content. */
  lemma SiblingIsThemeFile()
    ensures UnderPrefix("src/pages/about.md", "src/pages")
    ensures !UnderPrefix("src/pages-old/about.md", "src/pages")
  {
    assert "src/pages/about.md"[..|"src/pages/"|] == "src/pages/";
    assert "src/pages-old/about.md"[9] == '-';
  }

  /** The user files of a conflict list, in the order of the list. */
  function UserFiles(files: seq<string>): seq<string> {
    if files == [] then []
    else
      var n := |files| - 1;
      UserFiles(files[..n]) + (if IsUserContent(files[n]) then [files[n]] else [])
  }

  /** The theme files of a conflict list, in the order of the list. */
  function ThemeFiles(files: seq<string>): seq<string> {
    if files == [] then []
    else
      var n := |files| - 1;
      ThemeFiles(files[..n]) + (if IsThemeFile(files[n]) then [files[n]] else [])
  }

  /**
   * Every entry of a conflict list lands in exactly one of the two lists: the user files are the
   * entries that are user content, the theme files the others, and together they are the list.
   */
  lemma {:induction false} ClassifyPartition(files: seq<string>)
    ensures forall f :: f in UserFiles(files) <==> f in files && IsUserContent(f)
    ensures forall f :: f in ThemeFiles(files) <==> f in files && !IsUserContent(f)
    ensures multiset(UserFiles(files)) + multiset(ThemeFiles(files)) == multiset(files)
  {
    if files != [] {
      var n := |files| - 1;
      assert files == files[..n] + [files[n]];
      ClassifyPartition(files[..n]);
    }
  }

  /**
   * `classifyConflicts`: the user files and the theme files of a conflict list, each in the
   * order of the list.
   */
  method ClassifyConflicts(files: seq<string>) returns (userFiles: seq<string>, themeFiles: seq<string>)
    ensures userFiles == UserFiles(files)
    ensures themeFiles == ThemeFiles(files)
  {
    userFiles := [];
    themeFiles := [];
    for i := 0 to |files|
      invariant userFiles == UserFiles(files[..i])
      invariant themeFiles == ThemeFiles(files[..i])
    {
      assert files[..i + 1][..i] == files[..i];
      if IsUserContent(files[i]) {
        userFiles := userFiles + [files[i]];
      } else {
        themeFiles := themeFiles + [files[i]];
      }
    }
    assert files[..|files|] == files;
  }

  /** The distinct non-blank trimmed lines of a `gitSafe(...) || ''` answer, in first-seen order (`new Set`). */
  function PathSet(answer: Option<string>): seq<string> {
    Dedupe(AnswerLines(answer))
  }

  /** The files of `local` absent from `upstream` that are not user content, in the order of `local`. */
  function Removable(local: seq<string>, upstream: seq<string>): seq<string> {
    if local == [] then []
    else
      var n := |local| - 1;
      Removable(local[..n], upstream) + (if local[n] !in upstream && !IsUserContent(local[n]) then [local[n]] else [])
  }

  /** A file is removable exactly when it is local, not upstream and not user content; none is listed twice. */
  lemma {:induction false} RemovableExactly(local: seq<string>, upstream: seq<string>)
    ensures forall f :: f in Removable(local, upstream) <==> f in local && f !in upstream && !IsUserContent(f)
    ensures NoDup(local) ==> NoDup(Removable(local, upstream))
  {
    if local != [] {
      var n := |local| - 1;
      RemovableExactly(local[..n], upstream);
      assert local == local[..n] + [local[n]];
      if NoDup(local) {
        assert NoDup(local[..n]);
        assert local[n] !in local[..n];
      }
    }
  }

  /** The files a clean update deletes, given the `ls-files` and `ls-tree` answers. */
  function DeletedFiles(localOut: Option<string>, upstreamOut: Option<string>): seq<string> {
    Removable(PathSet(localOut), PathSet(upstreamOut))
  }

  /**
   * The loop of `removeDeletedUpstreamFiles` that picks the files to delete: the tracked files
   * absent from the upstream tree that are not user content, in the order of the tracked list.
   */
  method FilesToRemove(local: seq<string>, upstream: seq<string>) returns (filesToRemove: seq<string>)
    ensures filesToRemove == Removable(local, upstream)
  {
    filesToRemove := [];
    for i := 0 to |local|
      invariant filesToRemove == Removable(local[..i], upstream)
    {
      assert local[..i + 1][..i] == local[..i];
      if local[i] !in upstream && !IsUserContent(local[i]) {
        filesToRemove := filesToRemove + [local[i]];
      }
    }
    assert local[..|local|] == local;
  }

  /**
   * The set difference a clean update deletes: a file is removed exactly when it is tracked,
   * absent from the upstream tree and not user content, and each such file is removed once.
   */
  lemma DeletedFilesExactly(localOut: Option<string>, upstreamOut: Option<string>, x: string)
    ensures NoDup(DeletedFiles(localOut, upstreamOut))
    ensures x in DeletedFiles(localOut, upstreamOut) <==>
      x in AnswerLines(localOut) && x !in AnswerLines(upstreamOut) && !IsUserContent(x)
  {
    DedupeKeepsElements(AnswerLines(localOut));
    DedupeKeepsElements(AnswerLines(upstreamOut));
    RemovableExactly(PathSet(localOut), PathSet(upstreamOut));
  }

  /** The number of paths one `git rm` is given at most. */
  const BATCH_SIZE: nat := 100

  /** `slice(i, i + n)` for `i = 0, n, 2n, ...`: consecutive pieces of at most `n` elements. */
  function Chunks<T>(s: seq<T>, n: nat): (r: seq<seq<T>>)
    requires n > 0
    decreases |s|
  {
    if s == [] then []
    else if |s| <= n then [s]
    else [s[..n]] + Chunks(s[n..], n)
  }

  /** Every batch holds between one and `n` elements. */
  lemma {:induction false} ChunksBounded<T>(s: seq<T>, n: nat)
    requires n > 0
    ensures forall k :: 0 <= k < |Chunks(s, n)| ==> 0 < |Chunks(s, n)[k]| <= n
    decreases |s|
  {
    if |s| > n {
      ChunksBounded(s[n..], n);
      var r := Chunks(s, n);
      forall k | 1 <= k < |r|
        ensures 0 < |r[k]| <= n
      {
        assert r[k] == Chunks(s[n..], n)[k - 1];
      }
    }
  }

  /** The pieces of a list, put back together. */
  function Flatten<T>(pieces: seq<seq<T>>): seq<T> {
    if pieces == [] then [] else pieces[0] + Flatten(pieces[1..])
  }

  /** Batching loses, repeats and reorders nothing. */
  lemma {:induction false} ChunksFlatten<T>(s: seq<T>, n: nat)
    requires n > 0
    ensures Flatten(Chunks(s, n)) == s
    decreases |s|
  {
    if |s| > n {
      assert s == s[..n] + s[n..];
      ChunksFlatten(s[n..], n);
    }
  }

  /** Every batch but the last is full. */
  lemma {:induction false} ChunksFull<T>(s: seq<T>, n: nat)
    requires n > 0
    ensures forall k :: 0 <= k < |Chunks(s, n)| - 1 ==> |Chunks(s, n)[k]| == n
    decreases |s|
  {
    if |s| > n {
      ChunksFull(s[n..], n);
    }
  }

  /** The two status letters of a porcelain line (`line.slice(0, 2)`). */
  function StatusCode(line: string): (st: string)
    ensures |st| <= 2 && IsPrefix(st, line)
  {
    if |line| < 2 then line else line[..2]
  }

  /** An unmerged entry of `git status --porcelain`: a `U` on either side, or added or deleted by both. */
  predicate IsUnmergedLine(line: string) {
    var st := StatusCode(line);
    'U' in st || st == "AA" || st == "DD"
  }

  /** The path of a porcelain line (`line.slice(3)`). */
  function PathOfStatusLine(line: string): (p: string)
    ensures |line| >= 3 ==> line == line[..3] + p
    ensures |line| < 3 ==> p == ""
  {
    if |line| < 3 then "" else line[3..]
  }

  /** The paths of the unmerged entries of a porcelain listing, each once, in first-seen order. */
  function UnmergedPaths(status: string): seq<string> {
    Dedupe(UnmergedOf(Split(status, '\n')))
  }

  /** The paths of the non-blank unmerged lines among `lines`, in order. */
  function UnmergedOf(lines: seq<string>): seq<string> {
    if lines == [] then []
    else
      (if NotBlank(lines[0]) && IsUnmergedLine(lines[0]) then [PathOfStatusLine(lines[0])] else [])
      + UnmergedOf(lines[1..])
  }

  /** A non-blank unmerged porcelain line naming `x`. */
  predicate NamesUnmerged(line: string, x: string) {
    NotBlank(line) && IsUnmergedLine(line) && PathOfStatusLine(line) == x
  }

  /** A path is reported from the porcelain listing exactly when some non-blank unmerged line names it. */
  lemma UnmergedPathsExactly(status: string, x: string)
    ensures x in UnmergedPaths(status) <==> exists line :: line in Split(status, '\n') && NamesUnmerged(line, x)
  {
    DedupeKeepsElements(UnmergedOf(Split(status, '\n')));
    UnmergedOfExactly(Split(status, '\n'), x);
  }

  lemma {:induction false} UnmergedOfExactly(lines: seq<string>, x: string)
    ensures x in UnmergedOf(lines) <==> exists line :: line in lines && NamesUnmerged(line, x)
  {
    if lines != [] {
      assert lines == [lines[0]] + lines[1..];
      UnmergedOfExactly(lines[1..], x);
      assert x in UnmergedOf(lines) <==> NamesUnmerged(lines[0], x) || x in UnmergedOf(lines[1..]);
      if exists line :: line in lines && NamesUnmerged(line, x) {
        var line :| line in lines && NamesUnmerged(line, x);
        if line != lines[0] {
          assert line in lines[1..];
        }
      }
    }
  }

  /** A porcelain entry in conflict, with the path read after the status and the space. */
  lemma UnmergedEntryReported(path: string)
    requires path != [] && !IsSpace(path[0]) && !IsSpace(path[|path| - 1]) && '\n' !in path
    ensures UnmergedPaths("UU " + path) == [path]
  {
    var line := "UU " + path;
    assert '\n' !in line by {
      assert forall k :: 3 <= k < |line| ==> line[k] == path[k - 3];
    }
    assert Split(line, '\n') == [line];
    assert line[0] == 'U' && !IsSpace(line[0]);
    TrimUnchangedFront(line);
    assert NotBlank(line);
    assert StatusCode(line) == "UU";
    assert IsUnmergedLine(line);
    assert UnmergedOf([line]) == [PathOfStatusLine(line)];
    assert line[3..] == path;
  }

  lemma TrimUnchangedFront(s: string)
    requires s != [] && !IsSpace(s[0])
    ensures Trim(s) != ""
  {
    assert TrimStart(s) == s;
    TrimEndDropsSpace(s);
  }

  /** `git diff` lists no unmerged path, so `getConflictFiles` falls back on the porcelain status. */
  predicate DiffListsNone(diff: Option<string>) {
    AnswerLines(diff) == []
  }

  /**
   * `getConflictFiles` on the two `gitSafe(...)` answers: the unmerged paths of
   * `git diff --name-only --diff-filter=U` when it lists any, else those of the porcelain status.
   */
  function ConflictFilesOf(diff: Option<string>, status: Option<string>): seq<string> {
    var diffFiles := AnswerLines(diff);
    if diffFiles != [] then Dedupe(diffFiles)
    else if status.Some? then UnmergedPaths(status.value)
    else []
  }

  /**
   * The conflict files are listed once each: the paths `git diff` names when it names any,
   * otherwise the unmerged paths of the porcelain status, and none when that query failed too.
   */
  lemma ConflictFilesOfSpec(diff: Option<string>, status: Option<string>)
    ensures NoDup(ConflictFilesOf(diff, status))
    ensures !DiffListsNone(diff) ==> forall x :: x in ConflictFilesOf(diff, status) <==> x in AnswerLines(diff)
    ensures DiffListsNone(diff) && status.Some? ==> ConflictFilesOf(diff, status) == UnmergedPaths(status.value)
    ensures DiffListsNone(diff) && status.None? ==> ConflictFilesOf(diff, status) == []
  {
    DedupeKeepsElements(AnswerLines(diff));
    if status.Some? {
      DedupeKeepsElements(UnmergedOf(Split(status.value, '\n')));
    }
  }

  /** Reading the status only when the diff lists nothing gives the same conflict files as reading it always. */
  lemma ConflictFilesIgnoreStatus(diff: Option<string>, status: Option<string>)
    ensures ConflictFilesOf(diff, if DiffListsNone(diff) then status else None) == ConflictFilesOf(diff, status)
  {
  }

  /** `xs.filter((f) => !ys.includes(f))`. */
  function Without(xs: seq<string>, ys: seq<string>): seq<string> {
    if xs == [] then []
    else
      var n := |xs| - 1;
      Without(xs[..n], ys) + (if xs[n] !in ys then [xs[n]] else [])
  }

  /** What `Without` keeps: the entries of `xs` that are not in `ys`. */
  lemma {:induction false} WithoutExactly(xs: seq<string>, ys: seq<string>)
    ensures forall f :: f in Without(xs, ys) <==> f in xs && f !in ys
  {
    if xs != [] {
      var n := |xs| - 1;
      WithoutExactly(xs[..n], ys);
      assert xs == xs[..n] + [xs[n]];
    }
  }

  /**
   * How a regular merge's conflicts end once user files were resolved with `--ours`: `failed`
   * are the user files that could not be resolved, `commitOk` whether `git commit --no-edit`
   * succeeded (it is issued only when no theme or failed file remains).
   */
  function SettleRegularConflicts(userFiles: seq<string>, themeFiles: seq<string>, failed: seq<string>, commitOk: bool): (r: MergeResult)
    ensures !r.hasConflict <==> themeFiles == [] && failed == [] && commitOk
    ensures !r.hasConflict ==> r.success && r.conflictFiles == [] && r.error.None?
    ensures r.hasConflict ==> !r.success && r.conflictFiles == themeFiles + failed
    ensures r.isRebaseConflict.None? && r.preCleanSha.None? && r.error.None?
    ensures !r.hasConflict ==> r.autoResolvedFiles == Some(Without(userFiles, failed))
    ensures r.hasConflict && r.autoResolvedFiles.Some? ==>
      r.autoResolvedFiles.value == Without(userFiles, themeFiles + failed) != []
  {
    var remaining := themeFiles + failed;
    var resolved := Without(userFiles, remaining);
    if remaining == [] && commitOk then
      assert remaining == failed;
      MergeResult(true, false, [], None, None, Some(resolved), None)
    else
      MergeResult(false, true, remaining, None, None, if resolved != [] then Some(resolved) else None, None)
  }

  /** When theme and user files are told apart, the resolved files are the user files that did not fail. */
  lemma {:induction false} ResolvedAreUnfailedUserFiles(userFiles: seq<string>, themeFiles: seq<string>, failed: seq<string>)
    requires forall f :: f in userFiles ==> IsUserContent(f)
    requires forall f :: f in themeFiles ==> IsThemeFile(f)
    ensures Without(userFiles, themeFiles + failed) == Without(userFiles, failed)
  {
    if userFiles != [] {
      var n := |userFiles| - 1;
      ResolvedAreUnfailedUserFiles(userFiles[..n], themeFiles, failed);
      assert userFiles[n] in userFiles;
    }
  }

  /**
   * A regular merge can report a conflict with no conflict files: every user file resolved,
   * no theme file in conflict, but the final commit failed.
   */
  lemma EmptyConflictListPossible()
    ensures var r := SettleRegularConflicts(["src/pages/about.md"], [], [], false);
      r.hasConflict && r.conflictFiles == []
  {
  }
}
