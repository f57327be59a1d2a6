/**
 * Version tags: the `v` prefix rule, the reference a run compares against, the recent-tag
 * listing offered when a requested tag does not exist, and the release page address.
 */
module Tags {
  import opened Wrappers
  import opened Text
  import opened UpdateTypes
  import opened Gateway

  /** `normalizeTag`: tags are written with a leading `v`; one is added when missing. */
  function NormalizeTag(tag: string): (r: string)
    ensures StartsWith(r, "v")
    ensures StartsWith(tag, "v") ==> r == tag
    ensures !StartsWith(tag, "v") ==> r == "v" + tag
  {
    if StartsWith(tag, "v") then tag else "v" + tag
  }

  /** Normalising twice is normalising once. */
  lemma NormalizeTagIdempotent(tag: string)
    ensures NormalizeTag(NormalizeTag(tag)) == NormalizeTag(tag)
  {
  }

  /** Two tags normalise alike exactly when they agree once each has its `v`. */
  lemma NormalizeTagWithOrWithoutV(tag: string)
    requires !StartsWith(tag, "v")
    ensures NormalizeTag("v" + tag) == NormalizeTag(tag)
  {
    assert ("v" + tag)[..1] == "v";
  }

  /** A target tag counts as given when it is present and non-empty (JavaScript truthiness). */
  predicate TagGiven(tag: Option<string>) {
    tag.Some? && tag.value != ""
  }

  /** The reference a run compares with and merges: the normalised tag, or `upstream/main`. */
  function TargetRef(tag: Option<string>): (r: string)
    ensures StartsWith(r, "v") <==> TagGiven(tag)
    ensures TagGiven(tag) ==> NormalizeTag(r) == r
  {
    if TagGiven(tag) then NormalizeTag(tag.value)
    else assert DefaultRef()[0] != 'v'; DefaultRef()
  }

  /** A tag written with or without its `v` names the same reference. */
  lemma TargetRefWithOrWithoutV(tag: string)
    requires tag != "" && !StartsWith(tag, "v")
    ensures TargetRef(Some("v" + tag)) == TargetRef(Some(tag))
  {
    NormalizeTagWithOrWithoutV(tag);
  }

  /** `tagExists`: the normalised tag is a ref under `refs/tags/`. */
  predicate TagExists(q: Query, tag: string) {
    Truthy(q(ShowRef("refs/tags/" + NormalizeTag(tag))))
  }

  /** `hasUpstreamTrackingRef`: the remote-tracking ref of upstream's main branch exists. */
  predicate HasUpstreamTrackingRef(q: Query) {
    Truthy(q(ShowRef("refs/remotes/" + UPSTREAM_REMOTE + "/" + MAIN_BRANCH)))
  }

  /** The number of elements `slice(0, limit)` keeps from a list of `n`. */
  function SliceLength(n: nat, limit: int): (k: nat)
    ensures k <= n
    ensures 0 <= limit ==> k == if limit < n then limit else n
    ensures limit < 0 ==> k == if n + limit < 0 then 0 else n + limit
  {
    if limit >= 0 then (if limit < n then limit else n)
    else if n + limit < 0 then 0 else n + limit
  }

  /**
   * `listRecentTags(limit)` over the output of `git tag --sort=-creatordate --list "v*"`: the
   * first `limit` non-blank trimmed lines (a negative limit drops that many from the end).
   */
  function ListRecentTags(output: Option<string>, limit: int): (r: seq<string>)
    ensures |r| == SliceLength(|NonBlankLines(OrElse(output, ""))|, limit)
    ensures IsPrefix(r, NonBlankLines(OrElse(output, "")))
  {
    SliceFromStart(NonBlankLines(OrElse(output, "")), limit)
  }

  /** `list.slice(0, limit)`. */
  function SliceFromStart(list: seq<string>, limit: int): (r: seq<string>)
    ensures |r| == SliceLength(|list|, limit)
    ensures IsPrefix(r, list)
  {
    list[..SliceLength(|list|, limit)]
  }

  /** The recent-tag hint never lists more than it was asked for. */
  lemma RecentTagsBounded(output: Option<string>, limit: nat)
    ensures |ListRecentTags(output, limit)| <= limit
  {
  }

  /** The address of the release page of a version. */
  const RELEASE_PAGE_PREFIX: string := "https://github.com/" + GITHUB_REPO + "/releases/tag/"

  /** `buildReleaseUrl`: the release page of the version's normalised tag. */
  function BuildReleaseUrl(version: string): (r: string)
    ensures StartsWith(r, RELEASE_PAGE_PREFIX + "v")
  {
    RELEASE_PAGE_PREFIX + NormalizeTag(version)
  }

  /** Two versions share a release page exactly when their tags normalise alike. */
  lemma ReleaseUrlInjective(a: string, b: string)
    ensures BuildReleaseUrl(a) == BuildReleaseUrl(b) <==> NormalizeTag(a) == NormalizeTag(b)
  {
    if BuildReleaseUrl(a) == BuildReleaseUrl(b) {
      assert BuildReleaseUrl(a)[|RELEASE_PAGE_PREFIX|..] == BuildReleaseUrl(b)[|RELEASE_PAGE_PREFIX|..];
    }
  }
}
