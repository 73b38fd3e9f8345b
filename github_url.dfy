/**
  The GitHub URL parser of the local service: a URL is matched against four patterns, in a fixed
  order (pull request, blob, tree, bare repository), and the first pattern that matches anywhere in
  the URL decides the structured result.

  Each pattern begins with the literal `github.com/` and is otherwise unanchored at the start, so
  a pattern matches when, for some occurrence of `github.com/`, the text after it has the
  pattern's shape. The shapes are written below as explicit cutting at '/':
    pull:  `([^/]+)/([^/]+)/pull/(\d+)`                     (the end is unanchored)
    blob:  `([^/]+)/([^/]+)/blob/([^/]+)/(.+?)(?:#L(\d+))?$`
    tree:  `([^/]+)/([^/]+)/tree/([^/]+)(?:/(.+))?$`
    repo:  `([^/]+)/([^/]+)$`
  `[^/]` matches every character except '/', including a newline; `.` matches every character
  except a newline; `$` is the end of the text.
 */
module GitHubUrl {
  import opened Wrappers
  import opened Text

  /** `URLType`: "repository" or "pull_request". */
  datatype UrlType = Repository | PullRequest

  /** `GitHubURLInfo`. Fields a pattern does not set keep Go's zero values ("" and 0). */
  datatype UrlInfo = UrlInfo(
    owner: string,
    repo: string,
    kind: UrlType,
    branch: string,
    filePath: string,
    line: nat,
    prNumber: nat)

  /** "unsupported GitHub URL format: <url>", carrying the URL after trimming. */
  datatype ParseError = UnsupportedFormat(url: string)

  const Host: string := "github.com/"

  datatype Pattern = PullPattern | BlobPattern | TreePattern | RepoPattern

  /** The order in which the patterns are tried. */
  const Patterns: seq<Pattern> := [PullPattern, BlobPattern, TreePattern, RepoPattern]

  /** What every parse result satisfies: owner and repo are segments, a pull request carries no
      branch, path or line, a repository URL no pull-request number, and a path or line is only
      present below a branch. */
  predicate WellFormed(info: UrlInfo) {
    && IsSegment(info.owner) && IsSegment(info.repo)
    && (info.kind == PullRequest ==> info.branch == [] && info.filePath == [] && info.line == 0)
    && (info.kind == Repository ==> info.prNumber == 0)
    && (info.branch == [] ==> info.filePath == [] && info.line == 0)
    && (info.line > 0 ==> info.filePath != [])
  }

  /** Pull request: the number is the longest run of digits after `pull/`; anything after it
      (such as `/files`) is ignored. */
  function MatchPull(rest: string): (r: Option<UrlInfo>)
    ensures r.Some? ==> WellFormed(r.value) && r.value.kind == PullRequest
    ensures r.Some? ==> HasPrefix(rest, r.value.owner + "/" + r.value.repo)
  {
    match SplitOwnerRepo(rest)
    case None => None
    case Some((owner, repo, tail)) =>
      match CutSlash(tail)
      case None => None
      case Some((kind, after)) =>
        if kind == "pull" && DigitPrefix(after) != [] then
          Some(UrlInfo(owner, repo, PullRequest, "", "", 0, Atoi(DigitPrefix(after))))
        else None
  }

  /** The part of a blob URL after the branch: `(.+?)(?:#L(\d+))?$`. The shortest file path wins,
      so a trailing `#L<digits>` after a non-empty path is the line; the path must not contain a
      newline. */
  function FileAndLine(p: string): (r: Option<(string, nat)>)
    ensures r.Some? ==> r.value.0 != [] && '\n' !in r.value.0
    ensures r.Some? ==> HasPrefix(p, r.value.0)
  {
    if p == [] || '\n' in p then None else Some(LineFragment(p, DigitSuffix(p)))
  }

  /** Splits `<file>#L<d>` off a path whose trailing digits are `d`; any other path has no line. */
  function LineFragment(p: string, d: string): (r: (string, nat))
    requires p != [] && AllDigits(d) && HasSuffix(p, d)
    ensures r.0 != [] && HasPrefix(p, r.0)
  {
    var k := |p| - |d|;
    if d != [] && k >= 3 && p[k - 2] == '#' && p[k - 1] == 'L' then (p[..k - 2], Atoi(d))
    else (p, 0)
  }

  /** Blob (file view): the branch is exactly one segment, the file path the rest. */
  function MatchBlob(rest: string): (r: Option<UrlInfo>)
    ensures r.Some? ==> WellFormed(r.value) && r.value.kind == Repository
    ensures r.Some? ==> HasPrefix(rest, r.value.owner + "/" + r.value.repo)
  {
    match SplitOwnerRepo(rest)
    case None => None
    case Some((owner, repo, tail)) =>
      match CutSlash(tail)
      case None => None
      case Some((kind, after)) =>
        if kind != "blob" then None
        else
          match CutSlash(after)
          case None => None
          case Some((branch, path)) =>
            if branch == [] then None
            else
              match FileAndLine(path)
              case None => None
              case Some((file, line)) => Some(UrlInfo(owner, repo, Repository, branch, file, line, 0))
  }

  /** Tree (directory view): the branch is exactly one segment; the path after it, if any, must be
      non-empty and free of newlines. */
  function MatchTree(rest: string): (r: Option<UrlInfo>)
    ensures r.Some? ==> WellFormed(r.value) && r.value.kind == Repository
    ensures r.Some? ==> HasPrefix(rest, r.value.owner + "/" + r.value.repo)
  {
    match SplitOwnerRepo(rest)
    case None => None
    case Some((owner, repo, tail)) =>
      match CutSlash(tail)
      case None => None
      case Some((kind, after)) =>
        if kind != "tree" then None
        else
          match CutSlash(after)
          case None =>
            if after == [] then None else Some(UrlInfo(owner, repo, Repository, after, "", 0, 0))
          case Some((branch, path)) =>
            if branch == [] || path == [] || '\n' in path then None
            else Some(UrlInfo(owner, repo, Repository, branch, path, 0, 0))
  }

  /** Bare repository: exactly two segments up to the end. */
  function MatchRepo(rest: string): (r: Option<UrlInfo>)
    ensures r.Some? ==> WellFormed(r.value) && r.value.kind == Repository
    ensures r.Some? ==> rest == r.value.owner + "/" + r.value.repo
  {
    match CutSlash(rest)
    case None => None
    case Some((owner, repo)) =>
      if IsSegment(owner) && IsSegment(repo) then Some(UrlInfo(owner, repo, Repository, "", "", 0, 0))
      else None
  }

  function Apply(p: Pattern, rest: string): (r: Option<UrlInfo>)
    ensures r.Some? ==> WellFormed(r.value) && HasPrefix(rest, r.value.owner + "/" + r.value.repo)
    ensures r.Some? ==> (r.value.kind == PullRequest <==> p == PullPattern)
  {
    match p
    case PullPattern => MatchPull(rest)
    case BlobPattern => MatchBlob(rest)
    case TreePattern => MatchTree(rest)
    case RepoPattern =>
      var r := MatchRepo(rest);
      assert r.Some? ==> rest[..|r.value.owner + "/" + r.value.repo|] == rest;
      r
  }

  /** The text `github.com/<owner>/<repo>` that a successful match covers. */
  function HostPath(info: UrlInfo): string {
    Host + (info.owner + "/" + info.repo)
  }

  /** `FindStringSubmatch` of one pattern: the leftmost occurrence of `github.com/` after which the
      pattern's shape matches. */
  function FindMatch(p: Pattern, s: string): (r: Option<UrlInfo>)
    ensures r.Some? ==> WellFormed(r.value) && (r.value.kind == PullRequest <==> p == PullPattern)
    ensures r.Some? ==> Contains(s, HostPath(r.value))
    decreases |s|
  {
    if |s| < |Host| then None
    else if HasPrefix(s, Host) && Apply(p, s[|Host|..]).Some? then
      var info := Apply(p, s[|Host|..]);
      HasPrefixConcat(s, Host, info.value.owner + "/" + info.value.repo);
      info
    else FindMatch(p, s[1..])
  }

  /** The loop over the pattern list: the first pattern with a match decides. */
  function FirstMatching(ps: seq<Pattern>, url: string): (r: Result<UrlInfo, ParseError>)
    ensures r.Success? ==> WellFormed(r.value) && Contains(url, HostPath(r.value))
    ensures r.Failure? ==> r.error == UnsupportedFormat(url)
  {
    if ps == [] then Failure(UnsupportedFormat(url))
    else
      match FindMatch(ps[0], url)
      case Some(info) => Success(info)
      case None => FirstMatching(ps[1..], url)
  }

  /** `ParseGitHubURL`: trims one trailing '/' and tries the patterns in order. */
  function ParseGitHubURL(url: string): (r: Result<UrlInfo, ParseError>)
    ensures r.Success? ==> WellFormed(r.value)
    ensures r.Failure? ==> r.error == UnsupportedFormat(TrimSuffix(url, "/"))
  {
    FirstMatching(Patterns, TrimSuffix(url, "/"))
  }
}

