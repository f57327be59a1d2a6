/**
 * The upstream remote: URL normalisation for comparing remote URLs, and the decision table
 * that makes sure the `upstream` remote exists and points at the template repository.
 */
module Remote {
  import opened Wrappers
  import opened Text
  import opened UpdateTypes

  /** The parts of a parsed URL the comparison uses. */
  datatype ParsedUrl = ParsedUrl(hostname: string, pathname: string)

  /** WHATWG URL parsing (`new URL(s)`): None when the constructor throws. */
  type UrlParser = string -> Option<ParsedUrl>

  /** The schemes handed to the URL parser. */
  predicate HasUrlScheme(t: string) {
    StartsWith(t, "http://") || StartsWith(t, "https://") || StartsWith(t, "ssh://")
  }

  predicate NoLineTerminator(s: string) {
    forall k :: 0 <= k < |s| ==> !IsLineTerminator(s[k])
  }

  /**
   * `t.match(/^[^@]+@([^:]+):(.+)$/)`: the host (between the first `@` and the next `:`) and
   * the path (everything after that `:`), when the user part, the host and the path are all
   * non-empty and the path has no line terminator.
   */
  function ScpMatch(t: string): (m: Option<(string, string)>)
    ensures m.Some? ==>
      && m.value.0 != [] && ':' !in m.value.0
      && m.value.1 != [] && NoLineTerminator(m.value.1)
  {
    if '@' !in t then None
    else
      var i := IndexOf(t, '@');
      var rest := t[i + 1..];
      if i == 0 || ':' !in rest then None
      else
        var j := IndexOf(rest, ':');
        var host := rest[..j];
        var path := rest[j + 1..];
        if j == 0 || path == [] || !NoLineTerminator(path) then None
        else Some((host, path))
  }

  /** The scp-like form `user@host:path`. */
  function ScpUrl(user: string, host: string, path: string): string {
    user + "@" + host + ":" + path
  }

  /** Every well-formed scp-like URL is recognised, with its host and path recovered. */
  lemma ScpMatchOfScpUrl(user: string, host: string, path: string)
    requires user != [] && '@' !in user
    requires host != [] && ':' !in host
    requires path != [] && NoLineTerminator(path)
    ensures ScpMatch(ScpUrl(user, host, path)) == Some((host, path))
  {
    var t := ScpUrl(user, host, path);
    var rest := host + ":" + path;
    assert t == user + "@" + rest;
    assert t[|user|] == '@' && t[..|user|] == user;
    IndexOfAt(t, '@', |user|);
    assert t[|user| + 1..] == rest;
    assert rest[|host|] == ':' && rest[..|host|] == host;
    IndexOfAt(rest, ':', |host|);
    assert rest[|host| + 1..] == path;
  }

  /**
   * `normalizeRemoteUrl`: URLs with an http, https or ssh scheme become hostname plus pathname;
   * scp-like URLs become host plus path, joined with no separator; anything else (and a URL the
   * parser rejects) is kept. A trailing `.git` is dropped in every branch.
   */
  function NormalizeRemoteUrl(url: string, parse: UrlParser): string
  {
    var t := Trim(url);
    if HasUrlScheme(t) then
      match parse(t)
      case Some(u) => u.hostname + StripGitSuffix(u.pathname)
      case None => StripGitSuffix(t)
    else
      match ScpMatch(t)
      case Some(m) => m.0 + StripGitSuffix(m.1)
      case None => StripGitSuffix(t)
  }

  /** White space around a configured URL never changes what it normalises to. */
  lemma NormalizeIgnoresSurroundingSpace(url: string, parse: UrlParser)
    ensures NormalizeRemoteUrl(Trim(url), parse) == NormalizeRemoteUrl(url, parse)
  {
    var t := Trim(url);
    TrimUnchanged(t);
    assert Trim(t) == t;
  }

  /** A scp-like URL without a `:` in its user part is never taken for a scheme URL. */
  lemma ScpUrlHasNoScheme(user: string, host: string, path: string)
    requires user != [] && '@' !in user && ':' !in user
    ensures !HasUrlScheme(ScpUrl(user, host, path))
  {
    var t := ScpUrl(user, host, path);
    assert t[|user|] == '@';
    assert t[..|user|] == user;
    NotSchemePrefix(t, user, "http://", 4);
    NotSchemePrefix(t, user, "https://", 5);
    NotSchemePrefix(t, user, "ssh://", 3);
  }

  /** A string whose first `@` comes before any `:` does not start with a scheme that has a `:` before any `@`. */
  lemma NotSchemePrefix(t: string, user: string, scheme: string, c: nat)
    requires |user| < |t| && t[..|user|] == user && t[|user|] == '@' && ':' !in user
    requires c < |scheme| && scheme[c] == ':' && '@' !in scheme[..c + 1]
    ensures !StartsWith(t, scheme)
  {
    if |scheme| <= |t| {
      if |user| <= c {
        assert scheme[..c + 1][|user|] == scheme[|user|];
        assert t[..|scheme|][|user|] != scheme[|user|];
      } else {
        assert t[..|user|][c] == t[c];
        assert t[..|scheme|][c] != scheme[c];
      }
    }
  }

  /**
   * A scp-like remote normalises to its host immediately followed by its path (less `.git`),
   * whatever the URL parser does.
   */
  lemma {:induction false} NormalizeScpUrl(user: string, host: string, path: string, parse: UrlParser)
    requires user != [] && '@' !in user && ':' !in user && !IsSpace(user[0])
    requires host != [] && ':' !in host
    requires path != [] && NoLineTerminator(path) && !IsSpace(path[|path| - 1])
    ensures NormalizeRemoteUrl(ScpUrl(user, host, path), parse) == host + StripGitSuffix(path)
  {
    var t := ScpUrl(user, host, path);
    assert t[0] == user[0] && t[|t| - 1] == path[|path| - 1];
    TrimUnchanged(t);
    ScpUrlHasNoScheme(user, host, path);
    ScpMatchOfScpUrl(user, host, path);
  }

  /** A scp-like remote whose path ends in `.git` normalises to its host followed by the path without it. */
  lemma NormalizeScpGitUrl(user: string, host: string, name: string, parse: UrlParser)
    requires user != [] && '@' !in user && ':' !in user && !IsSpace(user[0])
    requires host != [] && ':' !in host
    requires NoLineTerminator(name)
    ensures NormalizeRemoteUrl(ScpUrl(user, host, name + ".git"), parse) == host + name
  {
    var p := name + ".git";
    assert NoLineTerminator(p) by {
      assert forall k :: |name| <= k < |p| ==> p[k] in ".git";
    }
    assert p[|p| - 1] == 't';
    NormalizeScpUrl(user, host, p, parse);
    StripGitSuffixOf(name);
  }

  /** Two scp-like remotes that differ only by a trailing `.git` compare equal. */
  lemma ScpGitSuffixIgnored(user: string, host: string, path: string, parse: UrlParser)
    requires user != [] && '@' !in user && ':' !in user && !IsSpace(user[0])
    requires host != [] && ':' !in host
    requires path != [] && NoLineTerminator(path) && !IsSpace(path[|path| - 1])
    requires !EndsWith(path, ".git")
    ensures NormalizeRemoteUrl(ScpUrl(user, host, path + ".git"), parse)
         == NormalizeRemoteUrl(ScpUrl(user, host, path), parse)
  {
    NormalizeScpGitUrl(user, host, path, parse);
    NormalizeScpUrl(user, host, path, parse);
  }

  /** The SSH form of the template URL normalises to host and repository glued together. */
  lemma ScpFormOfUpstream(parse: UrlParser)
    ensures NormalizeRemoteUrl(ScpUrl("git", "github.com", GITHUB_REPO + ".git"), parse)
         == "github.com" + GITHUB_REPO
  {
    NormalizeScpGitUrl("git", "github.com", GITHUB_REPO, parse);
  }

  /** A trimmed http, https or ssh URL the parser accepts normalises to its hostname and pathname, less `.git`. */
  lemma NormalizeSchemeUrl(url: string, parse: UrlParser)
    requires Trim(url) == url && HasUrlScheme(url) && parse(url).Some?
    ensures NormalizeRemoteUrl(url, parse)
         == parse(url).value.hostname + StripGitSuffix(parse(url).value.pathname)
  {
  }

  /** The template URL is trimmed and carries the https scheme. */
  lemma UpstreamUrlIsHttps()
    ensures Trim(UPSTREAM_URL) == UPSTREAM_URL && HasUrlScheme(UPSTREAM_URL)
  {
    StartsWithConcat("https://", "github.com/cosZone/astro-koharu.git");
    TrimUnchanged(UPSTREAM_URL);
  }

  /** The template URL itself normalises to host and path, under a parser that reads it the standard way. */
  lemma HttpsFormOfUpstream(parse: UrlParser)
    requires parse(UPSTREAM_URL) == Some(ParsedUrl("github.com", "/" + GITHUB_REPO + ".git"))
    ensures NormalizeRemoteUrl(UPSTREAM_URL, parse) == "github.com" + ("/" + GITHUB_REPO)
  {
    UpstreamUrlIsHttps();
    SchemeUrlForm(UPSTREAM_URL, "github.com", "/" + GITHUB_REPO, parse);
  }

  /** A trimmed scheme URL whose pathname ends in `.git` normalises to its hostname and the pathname without it. */
  lemma SchemeUrlForm(url: string, host: string, name: string, parse: UrlParser)
    requires Trim(url) == url && HasUrlScheme(url)
    requires parse(url) == Some(ParsedUrl(host, name + ".git"))
    ensures NormalizeRemoteUrl(url, parse) == host + name
  {
    NormalizeSchemeUrl(url, parse);
    StripGitSuffixOf(name);
  }

  /** Why an `upstream` remote could not be confirmed. */
  datatype Reason = Mismatch | Missing | AddFailed

  /** The outcome of `ensureUpstreamRemote`. */
  datatype EnsureUpstreamResult = EnsureUpstreamResult(
    existed: bool,
    success: bool,
    reason: Option<Reason>,
    currentUrl: Option<string>)

  /** The result, and whether `git remote add upstream <UPSTREAM_URL>` was issued to get it. */
  datatype EnsureOutcome = EnsureOutcome(result: EnsureUpstreamResult, addAttempted: bool)

  /**
   * `ensureUpstreamRemote({allowAdd})`, given the `gitSafe` answer of `remote get-url upstream`
   * and whether adding the remote would succeed. An existing remote is only compared, never
   * changed; an absent one is added only when adding is allowed.
   */
  function EnsureUpstreamRemote(getUrl: Option<string>, allowAdd: bool, addOk: bool, parse: UrlParser): (o: EnsureOutcome)
    ensures o.addAttempted <==> !(getUrl.Some? && getUrl.value != "") && allowAdd
    ensures o.result.existed <==> getUrl.Some? && getUrl.value != ""
    ensures o.result.success <==> o.result.reason.None?
    ensures o.result.existed ==>
      && o.result.currentUrl == getUrl
      && (o.result.success <==>
            NormalizeRemoteUrl(UPSTREAM_URL, parse) == NormalizeRemoteUrl(getUrl.value, parse))
      && (!o.result.success ==> o.result.reason == Some(Mismatch))
    ensures !o.result.existed ==> o.result.currentUrl.None?
    ensures !o.result.existed && !allowAdd ==> o.result.reason == Some(Missing)
    ensures !o.result.existed && allowAdd ==> (o.result.success <==> addOk)
    ensures !o.result.existed && allowAdd && !addOk ==> o.result.reason == Some(AddFailed)
  {
    if getUrl.Some? && getUrl.value != "" then
      var expected := NormalizeRemoteUrl(UPSTREAM_URL, parse);
      var actual := NormalizeRemoteUrl(getUrl.value, parse);
      if expected != actual then
        EnsureOutcome(EnsureUpstreamResult(true, false, Some(Mismatch), getUrl), false)
      else
        EnsureOutcome(EnsureUpstreamResult(true, true, None, getUrl), false)
    else if !allowAdd then
      EnsureOutcome(EnsureUpstreamResult(false, false, Some(Missing), None), false)
    else if addOk then
      EnsureOutcome(EnsureUpstreamResult(false, true, None, None), true)
    else
      EnsureOutcome(EnsureUpstreamResult(false, false, Some(AddFailed), None), true)
  }

  /** An existing remote whose URL normalises differently from the template's is a mismatch, and nothing is added. */
  lemma MismatchReported(url: string, allowAdd: bool, addOk: bool, parse: UrlParser)
    requires url != "" && NormalizeRemoteUrl(UPSTREAM_URL, parse) != NormalizeRemoteUrl(url, parse)
    ensures EnsureUpstreamRemote(Some(url), allowAdd, addOk, parse)
         == EnsureOutcome(EnsureUpstreamResult(true, false, Some(Mismatch), Some(url)), false)
  {
  }

  /**
   * An `upstream` remote configured with the SSH form of the template URL is reported as a
   * mismatch carrying that URL, and no remote is added.
   */
  lemma ScpUpstreamIsReportedAsMismatch(allowAdd: bool, addOk: bool, parse: UrlParser)
    requires parse(UPSTREAM_URL) == Some(ParsedUrl("github.com", "/" + GITHUB_REPO + ".git"))
    ensures var ssh := ScpUrl("git", "github.com", GITHUB_REPO + ".git");
      EnsureUpstreamRemote(Some(ssh), allowAdd, addOk, parse)
      == EnsureOutcome(EnsureUpstreamResult(true, false, Some(Mismatch), Some(ssh)), false)
  {
    ScpFormOfUpstream(parse);
    HttpsFormOfUpstream(parse);
    var a := "github.com" + GITHUB_REPO;
    var b := "github.com" + ("/" + GITHUB_REPO);
    assert a[10] == GITHUB_REPO[0] != b[10];
    MismatchReported(ScpUrl("git", "github.com", GITHUB_REPO + ".git"), allowAdd, addOk, parse);
  }
}
