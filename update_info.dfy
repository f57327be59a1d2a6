/**
 * What the fetch step learns about the distance between HEAD and the comparison reference:
 * the commit-log parser and `getUpdateInfo`, which reads the repository without changing it.
 */
module FetchInfo {
  import opened Wrappers
  import opened Text
  import opened UpdateTypes
  import opened Gateway
  import opened Tags

  /** The `k`-th `|`-separated field, or empty when the line has fewer fields. */
  function Field(fields: seq<string>, k: nat): string {
    if k < |fields| then fields[k] else ""
  }

  /** One `hash|subject|relative date|author` line. */
  function CommitOf(line: string): CommitInfo {
    var f := Split(line, '|');
    CommitInfo(Field(f, 0), Field(f, 1), Field(f, 2), Field(f, 3))
  }

  /** One commit per line. */
  function CommitsOf(lines: seq<string>): (r: seq<CommitInfo>)
    ensures |r| == |lines| && forall k :: 0 <= k < |r| ==> r[k] == CommitOf(lines[k])
  {
    if lines == [] then [] else CommitsOf(lines[..|lines| - 1]) + [CommitOf(lines[|lines| - 1])]
  }

  /** `parseCommits`: one entry per non-blank line of the trimmed output. */
  function ParseCommits(output: string): seq<CommitInfo> {
    if Trim(output) == "" then []
    else CommitsOf(KeptLines(Split(Trim(output), '\n')))
  }

  /** How `git log --pretty=format:"%h|%s|%ar|%an"` prints one commit. */
  function FormatCommit(c: CommitInfo): string {
    c.hash + "|" + c.message + "|" + c.date + "|" + c.author
  }

  lemma JoinFields(c: CommitInfo)
    ensures Join([c.hash, c.message, c.date, c.author], '|') == FormatCommit(c)
  {
    var p := [c.hash, c.message, c.date, c.author];
    assert p[1..] == [c.message, c.date, c.author];
    assert [c.message, c.date, c.author][1..] == [c.date, c.author];
    assert [c.date, c.author][1..] == [c.author];
    assert Join([c.date, c.author], '|') == c.date + "|" + c.author;
    assert Join([c.message, c.date, c.author], '|') == c.message + "|" + c.date + "|" + c.author;
  }

  /** How `git log` prints a list of commits: one line each. */
  function FormatLog(cs: seq<CommitInfo>): string {
    Join(seq(|cs|, k requires 0 <= k < |cs| => FormatCommit(cs[k])), '\n')
  }

  /**
   * A commit git can print so that it reads back: no field holds the `|` or newline separators,
   * and white space at the very start and end of the output would not be trimmed away.
   */
  predicate Printable(c: CommitInfo) {
    && '|' !in c.hash && '|' !in c.message && '|' !in c.date && '|' !in c.author
    && '\n' !in c.hash && '\n' !in c.message && '\n' !in c.date && '\n' !in c.author
    && (c.hash == [] || !IsSpace(c.hash[0]))
    && (c.author == [] || !IsSpace(c.author[|c.author| - 1]))
  }

  lemma FormatCommitShape(c: CommitInfo)
    requires Printable(c)
    ensures var s := FormatCommit(c);
      && '\n' !in s && s != []
      && !IsSpace(s[0]) && !IsSpace(s[|s| - 1])
  {
    var s := FormatCommit(c);
    assert s[|c.hash|] == '|';
    if c.hash != [] {
      assert s[0] == c.hash[0];
    }
    if c.author != [] {
      assert s[|s| - 1] == c.author[|c.author| - 1];
    }
  }

  /** A printed commit line reads back as the commit. */
  lemma CommitOfFormatCommit(c: CommitInfo)
    requires Printable(c)
    ensures CommitOf(FormatCommit(c)) == c
  {
    SplitJoin([c.hash, c.message, c.date, c.author], '|');
    JoinFields(c);
  }

  /** A join of lines starts with the first line and ends with the last. */
  lemma {:induction false} JoinEnds(parts: seq<string>, sep: char)
    requires |parts| >= 1
    ensures var s := Join(parts, sep);
      IsPrefix(parts[0], s) && |parts[|parts| - 1]| <= |s| && s[|s| - |parts[|parts| - 1]|..] == parts[|parts| - 1]
  {
    if |parts| > 1 {
      JoinEnds(parts[1..], sep);
      var rest := Join(parts[1..], sep);
      assert Join(parts, sep) == parts[0] + [sep] + rest;
    }
  }

  /** The printed lines of printable commits: newline-free, non-blank, each reading back as its commit. */
  lemma PrintedLines(cs: seq<CommitInfo>, lines: seq<string>)
    requires forall k :: 0 <= k < |cs| ==> Printable(cs[k])
    requires |lines| == |cs| && forall k :: 0 <= k < |cs| ==> lines[k] == FormatCommit(cs[k])
    ensures forall k :: 0 <= k < |lines| ==> '\n' !in lines[k] && NotBlank(lines[k]) && CommitOf(lines[k]) == cs[k]
  {
    forall k | 0 <= k < |cs|
      ensures '\n' !in lines[k] && NotBlank(lines[k]) && CommitOf(lines[k]) == cs[k]
    {
      FormatCommitShape(cs[k]);
      TrimUnchanged(lines[k]);
      CommitOfFormatCommit(cs[k]);
    }
  }

  /** The printed log of printable commits has nothing for `trim` to remove. */
  lemma PrintedLogTrimmed(cs: seq<CommitInfo>)
    requires |cs| >= 1 && forall k :: 0 <= k < |cs| ==> Printable(cs[k])
    ensures Trim(FormatLog(cs)) == FormatLog(cs) != ""
  {
    var lines := seq(|cs|, k requires 0 <= k < |cs| => FormatCommit(cs[k]));
    var s := FormatLog(cs);
    JoinEnds(lines, '\n');
    FormatCommitShape(cs[0]);
    FormatCommitShape(cs[|cs| - 1]);
    var first := lines[0];
    var last := lines[|lines| - 1];
    assert s[0] == first[0];
    assert s[|s| - 1] == last[|last| - 1];
    TrimUnchanged(s);
  }

  /** Output with nothing to trim, split into non-blank lines, parses line by line. */
  lemma ParseCleanOutput(s: string, lines: seq<string>, cs: seq<CommitInfo>)
    requires Trim(s) == s != "" && Split(s, '\n') == lines
    requires |lines| == |cs|
    requires forall k :: 0 <= k < |lines| ==> NotBlank(lines[k]) && CommitOf(lines[k]) == cs[k]
    ensures ParseCommits(s) == cs
  {
    KeptLinesAll(lines);
    assert ParseCommits(s) == CommitsOf(lines);
    CommitsOfEach(lines, cs);
  }

  lemma CommitsOfEach(lines: seq<string>, cs: seq<CommitInfo>)
    requires |lines| == |cs| && forall k :: 0 <= k < |lines| ==> CommitOf(lines[k]) == cs[k]
    ensures CommitsOf(lines) == cs
  {
    var r := CommitsOf(lines);
    assert forall k :: 0 <= k < |r| ==> r[k] == cs[k];
  }

  /** Parsing the printed log of printable commits gives the commits back. */
  lemma ParseFormatLog(cs: seq<CommitInfo>)
    requires forall k :: 0 <= k < |cs| ==> Printable(cs[k])
    ensures ParseCommits(FormatLog(cs)) == cs
  {
    var lines := seq(|cs|, k requires 0 <= k < |cs| => FormatCommit(cs[k]));
    var s := FormatLog(cs);
    if cs == [] {
      assert s == "";
    } else {
      PrintedLines(cs, lines);
      PrintedLogTrimmed(cs);
      SplitJoin(lines, '\n');
      ParseCleanOutput(s, lines, cs);
    }
  }

  /** `Number.parseInt(s, 10) || 0`: NaN (and zero) become zero. */
  function CountOf(s: string): int {
    match ParseDecimal(s)
    case Some(n) => n
    case None => 0
  }

  /** The `version` field of a package.json text: None when the text is not JSON or has no such field. */
  type ManifestReader = string -> Option<string>

  /** The version read from a `git show <rev>:package.json` answer, when there is a non-empty one. */
  function ManifestVersion(content: Option<string>, read: ManifestReader): (v: Option<string>)
    ensures v.Some? ==> v.value != "" && Truthy(content) && read(content.value) == v
  {
    if Truthy(content) && read(content.value).Some? && read(content.value).value != "" then
      read(content.value)
    else None
  }

  /** The `HEAD...<target>` left/right counts: the first field is HEAD's side, the second the target's. */
  function AheadBehind(revList: Option<string>): (r: (int, int))
  {
    var fields := Split(OrElse(revList, "0\t0"), '\t');
    (CountOf(fields[0]), if |fields| > 1 then CountOf(fields[1]) else 0)
  }

  /**
   * The version a run moves to: the tag without its `v`, else the version in upstream main's
   * package.json, else "unknown".
   */
  function LatestVersion(q: Query, targetTag: Option<string>, read: ManifestReader): (v: string)
    ensures TagGiven(targetTag) ==> "v" + v == NormalizeTag(targetTag.value)
    ensures !TagGiven(targetTag) ==>
      var m := ManifestVersion(q(ShowManifest(DefaultRef())), read);
      v == if m.Some? then m.value else "unknown"
  {
    if TagGiven(targetTag) then
      var tag := NormalizeTag(targetTag.value);
      assert tag == "v" + tag[1..];
      tag[1..]
    else
      var m := ManifestVersion(q(ShowManifest(DefaultRef())), read);
      if m.Some? then m.value else "unknown"
  }

  /**
   * `getUpdateInfo(targetTag)` over a repository that does not change while it is read;
   * `currentVersion` is the version of the local package.
   */
  function GetUpdateInfo(q: Query, targetTag: Option<string>, currentVersion: string, read: ManifestReader): (info: UpdateInfo)
    ensures info.hasUpstream <==> Truthy(q(RemoteGetUrl))
    ensures !info.hasUpstream ==> info == UpdateInfo(false, 0, 0, [], [], currentVersion, "unknown", false)
    ensures info.currentVersion == currentVersion
    ensures info.isDowngrade <==>
      info.hasUpstream && TagGiven(targetTag) && info.aheadCount > 0 && info.behindCount == 0
    ensures info.hasUpstream ==>
      (info.aheadCount, info.behindCount) == AheadBehind(q(RevListCount(TargetRef(targetTag))))
    ensures info.hasUpstream ==>
      info.localCommits == ParseCommits(OrElse(q(Log(TargetRef(targetTag) + "..HEAD")), ""))
    ensures info.hasUpstream && !info.isDowngrade ==>
      info.commits == ParseCommits(OrElse(q(Log("HEAD.." + TargetRef(targetTag))), ""))
    ensures info.isDowngrade ==> info.commits == info.localCommits
    ensures info.hasUpstream ==> info.latestVersion == LatestVersion(q, targetTag, read)
  {
    if !Truthy(q(RemoteGetUrl)) then
      UpdateInfo(false, 0, 0, [], [], currentVersion, "unknown", false)
    else
      var targetRef := TargetRef(targetTag);
      var (ahead, behind) := AheadBehind(q(RevListCount(targetRef)));
      var isDowngrade := TagGiven(targetTag) && ahead > 0 && behind == 0;
      var localCommits := ParseCommits(OrElse(q(Log(targetRef + "..HEAD")), ""));
      // a downgrade lists the commits it will drop: the same query as the local commits
      var commits :=
        if isDowngrade then localCommits
        else ParseCommits(OrElse(q(Log("HEAD.." + targetRef)), ""));
      UpdateInfo(true, behind, ahead, commits, localCommits, currentVersion, LatestVersion(q, targetTag, read), isDowngrade)
  }

  /** A well-formed `rev-list --count` answer is read as the two numbers it spells. */
  lemma RevListCounts(ahead: nat, behind: nat)
    ensures AheadBehind(Some(DecimalString(ahead) + "\t" + DecimalString(behind))) == (ahead, behind)
  {
    var a := DecimalString(ahead);
    var b := DecimalString(behind);
    DecimalStringDigits(ahead);
    DecimalStringDigits(behind);
    assert '\t' !in a && '\t' !in b by {
      assert forall k :: 0 <= k < |a| ==> IsDigit(a[k]);
      assert forall k :: 0 <= k < |b| ==> IsDigit(b[k]);
    }
    SplitAtSeparator(a, b, '\t');
    ParseDecimalOf(ahead);
    ParseDecimalOf(behind);
    assert CountOf(a) == ahead && CountOf(b) == behind;
  }

  /** A failed count query reads as level: nothing ahead, nothing behind, so no downgrade. */
  lemma FailedRevListIsLevel()
    ensures AheadBehind(None) == (0, 0)
  {
    SplitAtSeparator("0", "0", '\t');
    assert "0" + ['\t'] + "0" == "0\t0";
    assert DecimalString(0) == "0";
    ParseDecimalOf(0);
    assert CountOf("0") == 0;
  }

  /**
   * With a tag given and the counts reading as "HEAD is `ahead` commits past the tag and
   * nothing behind it", the run is a downgrade exactly when `ahead` is positive.
   */
  lemma DowngradeFromCounts(q: Query, tag: string, currentVersion: string, read: ManifestReader, ahead: nat, behind: nat)
    requires tag != "" && Truthy(q(RemoteGetUrl))
    requires q(RevListCount(NormalizeTag(tag))) == Some(DecimalString(ahead) + "\t" + DecimalString(behind))
    ensures GetUpdateInfo(q, Some(tag), currentVersion, read).isDowngrade <==> ahead > 0 && behind == 0
  {
    RevListCounts(ahead, behind);
  }
}
