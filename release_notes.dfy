/**
 * The short summary of a release's notes shown before an update: heading marks removed, blank
 * lines dropped, and the list cut after a number of lines or characters, with "..." marking a cut.
 */
module ReleaseNotes {
  import opened Wrappers
  import opened Text

  /** The number of `#` characters a string starts with. */
  function LeadingHashes(s: string): (n: nat)
    ensures n <= |s| && forall k :: 0 <= k < n ==> s[k] == '#'
    ensures n == |s| || s[n] != '#'
  {
    if s != [] && s[0] == '#' then 1 + LeadingHashes(s[1..]) else 0
  }

  /**
   * `line.replace(/^#{1,6}\s*\/, '')`: up to six leading `#` and the white space after them are
   * removed; a line not starting with `#` is kept.
   */
  function StripHeading(line: string): (r: string)
    ensures |r| <= |line| && r == line[|line| - |r|..]
    ensures LeadingHashes(line) == 0 ==> r == line
    ensures LeadingHashes(line) > 0 ==>
      var n := if LeadingHashes(line) < 6 then LeadingHashes(line) else 6;
      && r == TrimStart(line[n..])
      && (r == [] || !IsSpace(r[0]))
  {
    var n := LeadingHashes(line);
    if n == 0 then line
    else
      var m := if n < 6 then n else 6;
      TrimStart(line[m..])
  }

  /** A heading of one to six marks followed by a space gives its text back. */
  lemma StripHeadingOfHeading(marks: nat, text: string)
    requires 1 <= marks <= 6
    requires text == [] || (text[0] != '#' && !IsSpace(text[0]))
    ensures StripHeading(seq(marks, _ => '#') + " " + text) == text
  {
    var line := seq(marks, _ => '#') + " " + text;
    var rest := line[marks..];
    assert rest == " " + text;
    assert LeadingHashes(line) == marks by {
      assert line[marks] == ' ';
      LeadingHashesAt(line, marks);
    }
    assert StripHeading(line) == TrimStart(rest);
    assert TrimStart(rest) == TrimStart(rest[1..]) == TrimStart(text);
    assert TrimStart(text) == text;
  }

  lemma LeadingHashesAt(s: string, n: nat)
    requires n < |s| && s[n] != '#' && forall k :: 0 <= k < n ==> s[k] == '#'
    ensures LeadingHashes(s) == n
  {
    if n > 0 {
      LeadingHashesAt(s[1..], n - 1);
    }
  }

  /** The summary's candidate lines: trimmed, heading marks removed, empty ones dropped. */
  function SummaryLines(body: string): seq<string> {
    SummaryOf(Split(body, '\n'))
  }

  function SummaryOf(parts: seq<string>): (r: seq<string>)
    ensures forall x :: x in r ==> x != []
  {
    if parts == [] then []
    else
      var line := StripHeading(Trim(parts[0]));
      (if line != [] then [line] else []) + SummaryOf(parts[1..])
  }

  /** The total `.length` of a list of lines. */
  function TotalLength(lines: seq<string>): nat {
    if lines == [] then 0
    else TotalLength(lines[..|lines| - 1]) + Utf16Length(lines[|lines| - 1])
  }

  /** Whether the summary may still take the line at position `j`: fewer lines and characters than the limits. */
  predicate MayTake(lines: seq<string>, maxLines: int, maxChars: int, j: nat) {
    j <= |lines| && j < maxLines && TotalLength(lines[..j]) < maxChars
  }

  /** `k` is where the summary stops: every earlier line was allowed, and line `k` is not (or there is none). */
  predicate StopsAt(lines: seq<string>, maxLines: int, maxChars: int, k: nat) {
    && k <= |lines|
    && (forall j :: 0 <= j < k ==> MayTake(lines, maxLines, maxChars, j))
    && (k == |lines| || !MayTake(lines, maxLines, maxChars, k))
  }

  /** The summary of `lines` stopped at `k`: the kept lines, then "..." if any line was left out. */
  function SummaryAt(lines: seq<string>, k: nat): seq<string>
    requires k <= |lines|
  {
    lines[..k] + (if k < |lines| then ["..."] else [])
  }

  /** The stopping point is unique. */
  lemma StopsAtUnique(lines: seq<string>, maxLines: int, maxChars: int, k1: nat, k2: nat)
    requires StopsAt(lines, maxLines, maxChars, k1) && StopsAt(lines, maxLines, maxChars, k2)
    ensures k1 == k2
  {
    assert k1 < k2 ==> MayTake(lines, maxLines, maxChars, k1);
    assert k2 < k1 ==> MayTake(lines, maxLines, maxChars, k2);
  }

  /** The summary never keeps more lines than allowed, and keeps none when none are allowed. */
  lemma StopsWithinLineLimit(lines: seq<string>, maxLines: int, maxChars: int, k: nat)
    requires StopsAt(lines, maxLines, maxChars, k)
    ensures k <= |lines| && (k == 0 || k <= maxLines)
  {
    if k > 0 {
      assert MayTake(lines, maxLines, maxChars, k - 1);
    }
  }

  /** Every kept line but the last started below the character limit; the last may overshoot it. */
  lemma StopsWithinCharLimit(lines: seq<string>, maxLines: int, maxChars: int, k: nat)
    requires StopsAt(lines, maxLines, maxChars, k) && k > 0
    ensures TotalLength(lines[..k - 1]) < maxChars
  {
    assert MayTake(lines, maxLines, maxChars, k - 1);
  }

  lemma TotalLengthStep(lines: seq<string>, i: nat)
    requires i < |lines|
    ensures TotalLength(lines[..i + 1]) == TotalLength(lines[..i]) + Utf16Length(lines[i])
  {
    assert lines[..i + 1][..i] == lines[..i];
  }

  /** The cut of `lines`: the lines kept up to the stopping point, then "..." when lines were left out. */
  method Summarize(lines: seq<string>, maxLines: int, maxChars: int) returns (result: seq<string>)
    ensures exists k :: StopsAt(lines, maxLines, maxChars, k) && result == SummaryAt(lines, k)
  {
    result := [];
    var totalChars := 0;
    var i := 0;
    while i < |lines|
      invariant 0 <= i <= |lines|
      invariant result == lines[..i]
      invariant totalChars == TotalLength(lines[..i])
      invariant forall j :: 0 <= j < i ==> MayTake(lines, maxLines, maxChars, j)
    {
      if |result| >= maxLines || totalChars >= maxChars {
        break;
      }
      TotalLengthStep(lines, i);
      result := result + [lines[i]];
      totalChars := totalChars + Utf16Length(lines[i]);
      i := i + 1;
    }
    assert StopsAt(lines, maxLines, maxChars, i);
    if |result| < |lines| {
      result := result + ["..."];
    }
    assert result == SummaryAt(lines, i);
  }

  /**
   * `extractReleaseSummary(body, maxLines, maxChars)` (the callers use 5 and 300): the cut of the
   * body's summary lines; nothing for a missing or empty body.
   */
  method ExtractReleaseSummary(body: Option<string>, maxLines: int, maxChars: int) returns (result: seq<string>)
    ensures body.None? || body.value == "" ==> result == []
    ensures body.Some? && body.value != "" ==>
      exists k :: StopsAt(SummaryLines(body.value), maxLines, maxChars, k)
               && result == SummaryAt(SummaryLines(body.value), k)
  {
    if body.None? || body.value == "" {
      return [];
    }
    result := Summarize(SummaryLines(body.value), maxLines, maxChars);
  }
}
