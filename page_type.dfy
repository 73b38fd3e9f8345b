/**
  The browser extension's classification of the GitHub page it runs on, from the path of the
  page's location. The four anchored patterns are tried in order:
    pull request  `^/[^/]+/[^/]+/pull/\d+`
    file          `^/[^/]+/[^/]+/blob/`
    directory     `^/[^/]+/[^/]+/tree/`
    repository    `^/[^/]+/[^/]+/?$`
  and a path matching none of them is "unknown". `[^/]` matches every character but '/'.
 */
module PageType {
  import opened Wrappers
  import opened Text

  datatype PageKind = PullRequestPage | FilePage | DirectoryPage | RepositoryPage | UnknownPage

  /** The label the extension uses for each kind. */
  function Label(k: PageKind): (s: string)
    ensures s in {"pull_request", "file", "directory", "repository", "unknown"}
  {
    match k
    case PullRequestPage => "pull_request"
    case FilePage => "file"
    case DirectoryPage => "directory"
    case RepositoryPage => "repository"
    case UnknownPage => "unknown"
  }

  /** The third segment of `/<owner>/<repo>/<kind>/<after>` decides. */
  function SectionKind(kind: string, after: string): PageKind {
    if kind == "pull" && after != [] && IsDigit(after[0]) then PullRequestPage
    else if kind == "blob" then FilePage
    else if kind == "tree" then DirectoryPage
    else UnknownPage
  }

  /** The text after `/<owner>/<repo>/`: a section, or nothing at all for a repository. */
  function TailKind(tail: string): PageKind {
    match CutSlash(tail)
    case Some((kind, after)) => SectionKind(kind, after)
    case None => if tail == [] then RepositoryPage else UnknownPage
  }

  /** `/<owner>/<repo>` without a trailing '/'. */
  function TwoSegmentsKind(rest: string): PageKind {
    match CutSlash(rest)
    case Some((owner, repo)) => if IsSegment(owner) && IsSegment(repo) then RepositoryPage else UnknownPage
    case None => UnknownPage
  }

  /** `detectPageType` on the page's path. */
  function DetectPageType(path: string): (k: PageKind)
    ensures k != UnknownPage ==> HasPrefix(path, "/")
  {
    if path == [] || path[0] != '/' then UnknownPage
    else
      match SplitOwnerRepo(path[1..])
      case Some((_, _, tail)) => TailKind(tail)
      case None => TwoSegmentsKind(path[1..])
  }

  // ---------------------------------------------------------------------------------------
  // The patterns as sets of paths

  /** `/<owner>/<repo>/pull/<tail>` where the tail starts with a digit: the pattern's `\d+` is not
      anchored at the end, so one digit is all it needs. */
  ghost predicate PullAt(path: string, owner: string, repo: string, tail: string) {
    && IsSegment(owner) && IsSegment(repo) && tail != [] && IsDigit(tail[0])
    && path == "/" + (owner + "/" + (repo + "/" + ("pull" + "/" + tail)))
  }

  /** `/<owner>/<repo>/<kind>/<tail>` */
  ghost predicate SectionAt(path: string, owner: string, repo: string, kind: string, tail: string) {
    && IsSegment(owner) && IsSegment(repo)
    && path == "/" + (owner + "/" + (repo + "/" + (kind + "/" + tail)))
  }

  /** `/<owner>/<repo>` or `/<owner>/<repo>/` */
  ghost predicate RepoAt(path: string, owner: string, repo: string, slash: bool) {
    && IsSegment(owner) && IsSegment(repo)
    && path == "/" + (owner + "/" + (if slash then repo + "/" else repo))
  }

  ghost predicate MatchesPull(path: string) {
    exists owner, repo, tail :: PullAt(path, owner, repo, tail)
  }

  ghost predicate MatchesBlob(path: string) {
    exists owner, repo, tail :: SectionAt(path, owner, repo, "blob", tail)
  }

  ghost predicate MatchesTree(path: string) {
    exists owner, repo, tail :: SectionAt(path, owner, repo, "tree", tail)
  }

  ghost predicate MatchesRepo(path: string) {
    exists owner, repo, slash :: RepoAt(path, owner, repo, slash)
  }

  // ---------------------------------------------------------------------------------------
  // Each kind against its pattern

  lemma SlashParts(path: string)
    requires path != [] && path[0] == '/'
    ensures path == "/" + path[1..]
  {
  }

  /** Cutting `/<owner>/<repo>/<kind>/<tail>` gives back its parts. */
  lemma SectionCut(owner: string, repo: string, kind: string, tail: string)
    requires IsSegment(owner) && IsSegment(repo) && '/' !in kind
    ensures var path := "/" + (owner + "/" + (repo + "/" + (kind + "/" + tail)));
      && path != [] && path[0] == '/'
      && SplitOwnerRepo(path[1..]) == Some((owner, repo, kind + "/" + tail))
      && CutSlash(kind + "/" + tail) == Some((kind, tail))
  {
    var path := "/" + (owner + "/" + (repo + "/" + (kind + "/" + tail)));
    ConcatParts("/", owner + "/" + (repo + "/" + (kind + "/" + tail)));
    SplitOwnerRepoOf(owner, repo, kind + "/" + tail);
    CutSlashOf(kind, tail);
  }

  /** A path with a section is classified by the section alone. */
  lemma SectionDetect(owner: string, repo: string, kind: string, tail: string)
    requires IsSegment(owner) && IsSegment(repo) && '/' !in kind
    ensures DetectPageType("/" + (owner + "/" + (repo + "/" + (kind + "/" + tail)))) == SectionKind(kind, tail)
  {
    SectionCut(owner, repo, kind, tail);
  }

  lemma PullRequestPageSound(path: string)
    requires DetectPageType(path) == PullRequestPage
    ensures MatchesPull(path)
  {
    SlashParts(path);
    var (owner, repo, tail) := SplitOwnerRepo(path[1..]).value;
    assert TailKind(tail) == PullRequestPage;
    var (kind, after) := CutSlash(tail).value;
    assert SectionKind(kind, after) == PullRequestPage;
    assert PullAt(path, owner, repo, after);
  }

  lemma PullRequestPageComplete(path: string)
    requires MatchesPull(path)
    ensures DetectPageType(path) == PullRequestPage
  {
    var owner, repo, tail :| PullAt(path, owner, repo, tail);
    SectionDetect(owner, repo, "pull", tail);
  }

  lemma FilePageSound(path: string)
    requires DetectPageType(path) == FilePage
    ensures MatchesBlob(path)
  {
    SlashParts(path);
    var (owner, repo, tail) := SplitOwnerRepo(path[1..]).value;
    assert TailKind(tail) == FilePage;
    var (kind, after) := CutSlash(tail).value;
    assert SectionKind(kind, after) == FilePage;
    assert SectionAt(path, owner, repo, "blob", after);
  }

  lemma FilePageComplete(path: string)
    requires MatchesBlob(path)
    ensures DetectPageType(path) == FilePage
  {
    var owner, repo, tail :| SectionAt(path, owner, repo, "blob", tail);
    SectionDetect(owner, repo, "blob", tail);
  }

  lemma DirectoryPageSound(path: string)
    requires DetectPageType(path) == DirectoryPage
    ensures MatchesTree(path)
  {
    SlashParts(path);
    var (owner, repo, tail) := SplitOwnerRepo(path[1..]).value;
    assert TailKind(tail) == DirectoryPage;
    var (kind, after) := CutSlash(tail).value;
    assert SectionKind(kind, after) == DirectoryPage;
    assert SectionAt(path, owner, repo, "tree", after);
  }

  lemma DirectoryPageComplete(path: string)
    requires MatchesTree(path)
    ensures DetectPageType(path) == DirectoryPage
  {
    var owner, repo, tail :| SectionAt(path, owner, repo, "tree", tail);
    SectionDetect(owner, repo, "tree", tail);
  }

  lemma RepositoryPageSound(path: string)
    requires DetectPageType(path) == RepositoryPage
    ensures MatchesRepo(path)
  {
    SlashParts(path);
    var rest := path[1..];
    if SplitOwnerRepo(rest).Some? {
      var (owner, repo, tail) := SplitOwnerRepo(rest).value;
      assert TailKind(tail) == RepositoryPage;
      assert tail == [];
      assert repo + "/" + tail == repo + "/";
      assert RepoAt(path, owner, repo, true);
    } else {
      assert TwoSegmentsKind(rest) == RepositoryPage;
      var (owner, repo) := CutSlash(rest).value;
      assert RepoAt(path, owner, repo, false);
    }
  }

  lemma RepositoryPageComplete(path: string)
    requires MatchesRepo(path)
    ensures DetectPageType(path) == RepositoryPage
  {
    var owner, repo, slash :| RepoAt(path, owner, repo, slash);
    if slash {
      RepoWithSlashDetect(owner, repo);
    } else {
      RepoDetect(owner, repo);
    }
  }

  /** `/<owner>/<repo>/` is a repository page. */
  lemma RepoWithSlashDetect(owner: string, repo: string)
    requires IsSegment(owner) && IsSegment(repo)
    ensures DetectPageType("/" + (owner + "/" + (repo + "/"))) == RepositoryPage
  {
    var rest := owner + "/" + (repo + "/");
    var path := "/" + rest;
    assert repo + "/" + [] == repo + "/";
    SplitOwnerRepoOf(owner, repo, []);
    assert SplitOwnerRepo(rest) == Some((owner, repo, []));
    assert path[0] == '/' && path[1..] == rest;
    assert CutSlash([]) == None;
    assert DetectPageType(path) == TailKind([]);
  }

  /** `/<owner>/<repo>` is a repository page. */
  lemma RepoDetect(owner: string, repo: string)
    requires IsSegment(owner) && IsSegment(repo)
    ensures DetectPageType("/" + (owner + "/" + repo)) == RepositoryPage
  {
    ConcatParts("/", owner + "/" + repo);
    CutSlashOf(owner, repo);
    SplitOwnerRepoOfTwo(owner, repo);
  }

  /** Two segments without a second '/' do not split into owner, repository and tail. */
  lemma SplitOwnerRepoOfTwo(owner: string, repo: string)
    requires IsSegment(owner) && IsSegment(repo)
    ensures SplitOwnerRepo(owner + "/" + repo) == None
  {
    if SplitOwnerRepo(owner + "/" + repo).Some? {
      var (o, r, t) := SplitOwnerRepo(owner + "/" + repo).value;
      CutSlashOf(owner, repo);
      CutSlashOf(o, r + "/" + t);
    }
  }

  /** A pull-request page is exactly a path matching the pull-request pattern. */
  lemma PullRequestPageIff(path: string)
    ensures DetectPageType(path) == PullRequestPage <==> MatchesPull(path)
  {
    if DetectPageType(path) == PullRequestPage { PullRequestPageSound(path); }
    if MatchesPull(path) { PullRequestPageComplete(path); }
  }

  /** A file page is exactly a path matching the blob pattern. */
  lemma FilePageIff(path: string)
    ensures DetectPageType(path) == FilePage <==> MatchesBlob(path)
  {
    if DetectPageType(path) == FilePage { FilePageSound(path); }
    if MatchesBlob(path) { FilePageComplete(path); }
  }

  /** A directory page is exactly a path matching the tree pattern. */
  lemma DirectoryPageIff(path: string)
    ensures DetectPageType(path) == DirectoryPage <==> MatchesTree(path)
  {
    if DetectPageType(path) == DirectoryPage { DirectoryPageSound(path); }
    if MatchesTree(path) { DirectoryPageComplete(path); }
  }

  /** A repository page is exactly a path matching the repository pattern. */
  lemma RepositoryPageIff(path: string)
    ensures DetectPageType(path) == RepositoryPage <==> MatchesRepo(path)
  {
    if DetectPageType(path) == RepositoryPage { RepositoryPageSound(path); }
    if MatchesRepo(path) { RepositoryPageComplete(path); }
  }

  /** Every other path is unknown. */
  lemma UnknownPageIff(path: string)
    ensures DetectPageType(path) == UnknownPage <==>
      !MatchesPull(path) && !MatchesBlob(path) && !MatchesTree(path) && !MatchesRepo(path)
  {
    PullRequestPageIff(path);
    FilePageIff(path);
    DirectoryPageIff(path);
    RepositoryPageIff(path);
  }
}
