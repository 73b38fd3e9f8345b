/**
  Properties of the `/open` handlers: which git commands they run and in which directory, what
  the selection rules choose, and how repositories are named in the cache directory.
 */
module ServiceProperties {
  import opened Wrappers
  import opened Text
  import opened GitHubUrl
  import opened Handlers

  // ---------------------------------------------------------------------------------------
  // Git command sequences

  /** Every command `handleRepository` runs is in the repository's own directory. */
  lemma RepositoryCallsStayInPath(path: string, url: string, branch: string, existed: bool, git: GitCall -> bool)
    ensures forall c :: c in RepositoryCalls(path, url, branch, existed, git) ==> c.path == path
  {
  }

  /** Every command `handlePullRequest` runs is in the repository's own directory. */
  lemma PullRequestCallsStayInPath(path: string, url: string, n: nat, existed: bool, git: GitCall -> bool)
    ensures forall c :: c in PullRequestCalls(path, url, n, existed, git) ==> c.path == path
  {
  }

  /** An existing directory is updated, never cloned again: by `git pull` for a repository URL, by
      `git fetch` for a pull request. */
  lemma ExistingRepositoryIsNotCloned(path: string, url: string, branch: string, n: nat, git: GitCall -> bool)
    ensures var calls := RepositoryCalls(path, url, branch, true, git);
      calls[0] == Pull(path) && forall c :: c in calls ==> !c.Clone?
    ensures var calls := PullRequestCalls(path, url, n, true, git);
      calls[0] == Fetch(path) && forall c :: c in calls ==> !c.Clone?
  {
  }

  /** A missing directory is cloned first, from the given URL into that directory. */
  lemma MissingRepositoryIsCloned(path: string, url: string, branch: string, n: nat, git: GitCall -> bool)
    ensures RepositoryCalls(path, url, branch, false, git)[0] == Clone(url, path)
    ensures PullRequestCalls(path, url, n, false, git)[0] == Clone(url, path)
  {
  }

  /** Without a branch in the URL, only the pull or the clone runs. */
  lemma NoBranchNoCheckout(path: string, url: string, existed: bool, git: GitCall -> bool)
    ensures |RepositoryCalls(path, url, "", existed, git)| == 1
  {
  }

  /** The tag is tried exactly when a branch was named, the directory is there (it existed or the
      clone worked) and checking out the name as a branch failed. */
  lemma TagOnlyAfterFailedCheckout(path: string, url: string, branch: string, existed: bool, git: GitCall -> bool)
    ensures CheckoutTag(path, branch) in RepositoryCalls(path, url, branch, existed, git)
        <==> branch != [] && (existed || git(Clone(url, path))) && !git(Checkout(path, branch))
  {
    var calls := RepositoryCalls(path, url, branch, existed, git);
    if branch != [] && (existed || git(Clone(url, path))) && !git(Checkout(path, branch)) {
      assert calls[3] == CheckoutTag(path, branch);
    }
  }

  /** The pull request's branch is checked out only after it was fetched, and is always `pr-<n>`. */
  lemma PrCheckoutOnlyAfterFetch(path: string, url: string, n: nat, existed: bool, git: GitCall -> bool)
    ensures forall c :: c in PullRequestCalls(path, url, n, existed, git) && c.Checkout? ==>
      c.branch == PrBranch(n) && git(FetchPR(path, n, PrBranch(n)))
  {
  }

  /** Different pull requests use different local branches. */
  lemma PrBranchInjective(n: nat, m: nat)
    ensures PrBranch(n) == PrBranch(m) ==> n == m
  {
  }

  // ---------------------------------------------------------------------------------------
  // Selection

  /** The URL's line is used only when the request gives none (0); a negative request line is
      kept and then means "no line" to the editor. */
  lemma LineChoice(requestLine: int, urlLine: nat)
    ensures SelectLine(requestLine, urlLine) > 0 <==> requestLine > 0 || (requestLine == 0 && urlLine > 0)
  {
  }

  /** A request's path takes the place of the URL's path. */
  lemma RequestPathWins(repoPath: string, requestPath: string, urlPath: string, otherUrlPath: string)
    requires requestPath != []
    ensures TargetPath(repoPath, requestPath, urlPath) == TargetPath(repoPath, requestPath, otherUrlPath)
  {
  }

  // ---------------------------------------------------------------------------------------
  // Repository directories

  /** After the first `/open` of a repository its directory exists, so a later `/open` of any URL
      of the same repository runs no clone. */
  lemma SecondOpenDoesNotClone(s: Service, info: UrlInfo, git: GitCall -> bool)
    ensures forall c :: c in s.OpenCalls(info, true, git) ==> !c.Clone?
  {
    ExistingRepositoryIsNotCloned(s.RepoPath(info.owner, info.repo), CloneUrl(info.owner, info.repo),
      info.branch, info.prNumber, git);
  }

  lemma JoinInjective(dir: string, a: string, b: string)
    requires a != [] && b != []
    ensures Join(dir, a) == Join(dir, b) ==> a == b
  {
    if dir != [] && Join(dir, a) == Join(dir, b) {
      assert a == Join(dir, a)[|dir| + 1..];
    }
  }

  lemma DashedNameUnique(o1: string, r1: string, o2: string, r2: string)
    requires '-' !in o1 && '-' !in o2
    ensures o1 + "-" + r1 == o2 + "-" + r2 ==> o1 == o2 && r1 == r2
  {
    var x, y := o1 + "-" + r1, o2 + "-" + r2;
    if x == y {
      assert x[|o1|] == '-';
      assert y[|o2|] == '-';
      assert o1 == x[..|o1|] && o2 == y[..|o2|];
      assert r1 == x[|o1| + 1..] && r2 == y[|o2| + 1..];
    }
  }

  /** Repositories whose owners have no '-' get distinct directories. */
  lemma RepoPathDistinct(s: Service, o1: string, r1: string, o2: string, r2: string)
    requires '-' !in o1 && '-' !in o2
    requires o1 != o2 || r1 != r2
    ensures s.RepoPath(o1, r1) != s.RepoPath(o2, r2)
  {
    JoinInjective(s.cacheDir, o1 + "-" + r1, o2 + "-" + r2);
    DashedNameUnique(o1, r1, o2, r2);
  }

  /** The directory name `<owner>-<repo>` is ambiguous when a name contains '-': `<a>-<b>/<c>` and
      `<a>/<b>-<c>` share the directory `<a>-<b>-<c>` (for example `a-b/c` and `a/b-c`). */
  lemma RepoPathSharedByDashedNames(s: Service, a: string, b: string, c: string)
    ensures s.RepoPath(a + "-" + b, c) == s.RepoPath(a, b + "-" + c)
  {
    assert a + "-" + b + "-" + c == a + "-" + (b + "-" + c);
  }
}
