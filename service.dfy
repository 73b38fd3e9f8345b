/**
  The local HTTP service's `/open` endpoint: it parses a GitHub URL, makes sure the repository is
  cloned into the cache directory and has the right branch, tag or pull request checked out, and
  opens the target file in an editor.

  The file system and git are abstract. `disk` maps each repository directory that exists to the
  ref checked out in it; `gitLog` records every git command in order; `launched` records every
  editor process started. Whether a git command succeeds is an oracle `git`, whether an editor
  process starts is an oracle `start`.
 */
module Handlers {
  import opened Wrappers
  import opened Text
  import opened GitHubUrl
  import RepoConfig
  import Ide

  /** What a repository directory has checked out. */
  datatype Ref = DefaultBranch | Branch(name: string) | Tag(name: string)

  /** The git commands the handlers run, each in one repository directory. */
  datatype GitCall =
    | Clone(url: string, path: string)                          // git clone --filter=blob:none <url> <path>
    | Pull(path: string)                                        // git pull
    | Fetch(path: string)                                       // git fetch --all --tags
    | Checkout(path: string, branch: string)                    // git checkout <branch> (or -b <branch> origin/<branch>)
    | CheckoutTag(path: string, tag: string)                    // git checkout tags/<tag>
    | FetchPR(path: string, number: nat, localBranch: string)   // git fetch origin pull/<n>/head:<local>

  /** The `/open` request body, already decoded. */
  datatype OpenRequest = OpenRequest(url: string, ide: string, filePath: string, line: int)

  /** Why a handler gave up. */
  datatype RepoError = CloneFailed | FetchPrFailed | PrCheckoutFailed

  datatype OpenError =
    | InvalidRequest                    // 400: the required `url` is missing
    | InvalidUrl(parse: ParseError)     // 400: "Invalid GitHub URL: ..."
    | RepoFailed(repo: RepoError)       // 500: the handler's error
    | IdeFailed(ide: Ide.IdeError)      // 500: "Failed to open IDE: ..."

  /** The HTTP status and, on success, the repository path of the response. */
  datatype OpenResponse = OpenResponse(status: int, result: Result<string, OpenError>)

  /** What a successful git command does to the directories: a clone creates the directory on the
      default branch, a checkout switches the ref of an existing directory; the other commands
      leave the refs alone. */
  function AfterGit(disk: map<string, Ref>, call: GitCall, ok: bool): (d: map<string, Ref>)
    ensures disk.Keys <= d.Keys
    ensures forall q :: q in disk && q != call.path ==> q in d && d[q] == disk[q]
    ensures d.Keys <= disk.Keys + {call.path}
    ensures !(ok && call.Clone?) ==> d.Keys == disk.Keys
  {
    if !ok then disk
    else match call
      case Clone(_, path) => disk[path := DefaultBranch]
      case Checkout(path, branch) => if path in disk then disk[path := Branch(branch)] else disk
      case CheckoutTag(path, tag) => if path in disk then disk[path := Tag(tag)] else disk
      case _ => disk
  }

  /** `https://github.com/<owner>/<repo>.git` */
  function CloneUrl(owner: string, repo: string): (u: string)
    ensures HasPrefix(u, "https://github.com/") && HasSuffix(u, ".git")
  {
    "https://github.com/" + owner + "/" + repo + ".git"
  }

  /** The local branch a pull request is fetched into: `pr-<n>`. */
  function PrBranch(n: nat): (b: string)
    ensures HasPrefix(b, "pr-") && AllDigits(b[3..]) && DecimalValue(b[3..]) == n
  {
    var d := DecimalString(n);
    DecimalRoundTrip(n);
    assert ("pr-" + d)[3..] == d;
    "pr-" + d
  }

  /** The git commands `handleRepository` runs for a directory that `existed` or not: pull or
      clone; then, when a branch is named, fetch and checkout, falling back to the tag only when
      the checkout failed. A failed clone ends the sequence. */
  function RepositoryCalls(path: string, url: string, branch: string, existed: bool, git: GitCall -> bool)
    : (calls: seq<GitCall>)
    ensures 1 <= |calls| <= 4 && calls[0] == if existed then Pull(path) else Clone(url, path)
    ensures |calls| > 1 <==> branch != "" && (existed || git(Clone(url, path)))
  {
    var first := if existed then Pull(path) else Clone(url, path);
    if !existed && !git(first) then [first]
    else if branch == "" then [first]
    else [first] + SwitchCalls(path, branch, git)
  }

  /** The git commands that switch an existing directory to a branch or tag: fetch, checkout, and
      the tag checkout only when the branch checkout failed. */
  function SwitchCalls(path: string, branch: string, git: GitCall -> bool): seq<GitCall> {
    if git(Checkout(path, branch)) then [Fetch(path), Checkout(path, branch)]
    else [Fetch(path), Checkout(path, branch), CheckoutTag(path, branch)]
  }

  /** The git commands `handlePullRequest` runs: fetch or clone, then the pull request's own
      commands; a failed clone ends the sequence. */
  function PullRequestCalls(path: string, url: string, n: nat, existed: bool, git: GitCall -> bool)
    : (calls: seq<GitCall>)
    ensures 1 <= |calls| <= 3 && calls[0] == if existed then Fetch(path) else Clone(url, path)
    ensures |calls| > 1 <==> existed || git(Clone(url, path))
  {
    var first := if existed then Fetch(path) else Clone(url, path);
    if !existed && !git(first) then [first]
    else [first] + PrCalls(path, n, git)
  }

  /** Fetch the pull request's head into `pr-<n>`, then check that branch out unless the fetch
      failed. */
  function PrCalls(path: string, n: nat, git: GitCall -> bool): seq<GitCall> {
    var fetch := FetchPR(path, n, PrBranch(n));
    if !git(fetch) then [fetch] else [fetch, Checkout(path, PrBranch(n))]
  }

  /** What `handleRepository` leaves behind for directory `p`, given the directories `d0` before
      it: its result and the directories after it. */
  function RepositoryOutcome(p: string, url: string, branch: string, d0: map<string, Ref>, git: GitCall -> bool)
    : (o: (Result<string, RepoError>, map<string, Ref>))
    ensures o.0.Failure? <==> p !in d0 && !git(Clone(url, p))
    ensures o.0.Failure? ==> o.0.error == CloneFailed && o.1 == d0
    ensures o.0.Success? ==> o.0.value == p && o.1.Keys == d0.Keys + {p}
    ensures forall q :: q in d0 && q != p ==> q in o.1 && o.1[q] == d0[q]
  {
    if p !in d0 && !git(Clone(url, p)) then (Failure(CloneFailed), d0)
    else
      var before := if p in d0 then d0[p] else DefaultBranch;
      (Success(p), d0[p := RepositoryRef(before, branch, p, git)])
  }

  /** What `handlePullRequest` leaves behind for directory `p`, given the directories `d0` before
      it. */
  function PullRequestOutcome(p: string, url: string, n: nat, d0: map<string, Ref>, git: GitCall -> bool)
    : (o: (Result<string, RepoError>, map<string, Ref>))
    ensures o.0.Success? <==> (p in d0 || git(Clone(url, p))) && git(FetchPR(p, n, PrBranch(n))) && git(Checkout(p, PrBranch(n)))
    ensures o.0.Success? ==> o.0.value == p && p in o.1 && o.1[p] == Branch(PrBranch(n))
    ensures p !in d0 && !git(Clone(url, p)) ==> o == (Failure(CloneFailed), d0)
    ensures p in d0 || git(Clone(url, p)) ==> o.1.Keys == d0.Keys + {p}
    ensures forall q :: q in d0 && q != p ==> q in o.1 && o.1[q] == d0[q]
  {
    if p !in d0 && !git(Clone(url, p)) then (Failure(CloneFailed), d0)
    else
      var cloned := if p in d0 then d0 else d0[p := DefaultBranch];
      if !git(FetchPR(p, n, PrBranch(n))) then (Failure(FetchPrFailed), cloned)
      else if !git(Checkout(p, PrBranch(n))) then (Failure(PrCheckoutFailed), cloned)
      else (Success(p), d0[p := Branch(PrBranch(n))])
  }

  /** The ref a successful `handleRepository` leaves checked out. */
  function RepositoryRef(old_ref: Ref, branch: string, path: string, git: GitCall -> bool): Ref {
    if branch != "" && git(Checkout(path, branch)) then Branch(branch)
    else if branch != "" && git(CheckoutTag(path, branch)) then Tag(branch)
    else old_ref
  }

  /** Which file or directory is opened: the request's path, else the URL's path, joined to the
      repository path; the repository itself when neither names one. */
  function TargetPath(repoPath: string, requestPath: string, urlPath: string): (t: string)
    ensures HasPrefix(t, repoPath)
    ensures requestPath != [] ==> HasSuffix(t, requestPath)
    ensures requestPath == [] ==> HasSuffix(t, urlPath)
    ensures requestPath == [] && urlPath == [] ==> t == repoPath
  {
    if requestPath != "" then Join(repoPath, requestPath)
    else if urlPath != "" then Join(repoPath, urlPath)
    else repoPath
  }

  /** The line to open: the request's line unless it is 0, in which case the URL's line. */
  function SelectLine(requestLine: int, urlLine: nat): (l: int)
    ensures requestLine != 0 ==> l == requestLine
    ensures requestLine == 0 ==> l == urlLine
  {
    if requestLine == 0 && urlLine > 0 then urlLine else requestLine
  }

  /** The editor: the request's, else the configured default. */
  function SelectIde(requestIde: string, defaultIde: string): (ide: string)
    ensures requestIde != [] ==> ide == requestIde
    ensures requestIde == [] ==> ide == defaultIde
  {
    if requestIde != "" then requestIde else defaultIde
  }

  class Service {
    const config: RepoConfig.Config
    /** `<home>/.github-browser/repos`, whatever the configuration's cache directory says. */
    const cacheDir: string
    /** The operating system, as Go's `runtime.GOOS` names it. */
    const goos: string
    var disk: map<string, Ref>
    var gitLog: seq<GitCall>
    var launched: seq<Ide.Command>

    constructor (config: RepoConfig.Config, home: string, goos: string, disk: map<string, Ref>)
      ensures this.config == config && this.goos == goos
      ensures cacheDir == Join(home, RepoConfig.DefaultCacheDir)
      ensures this.disk == disk && gitLog == [] && launched == []
    {
      this.config := config;
      this.cacheDir := Join(home, RepoConfig.DefaultCacheDir);
      this.goos := goos;
      this.disk := disk;
      this.gitLog := [];
      this.launched := [];
    }

    /** `<cacheDir>/<owner>-<repo>` */
    function RepoPath(owner: string, repo: string): (p: string)
      ensures HasPrefix(p, cacheDir) && HasSuffix(p, owner + "-" + repo)
    {
      Join(cacheDir, owner + "-" + repo)
    }

    /** The handler `/open` runs for a parsed URL, by its kind. */
    function HandlerOutcome(info: UrlInfo, d0: map<string, Ref>, git: GitCall -> bool)
      : (o: (Result<string, RepoError>, map<string, Ref>))
    {
      var p := RepoPath(info.owner, info.repo);
      var url := CloneUrl(info.owner, info.repo);
      match info.kind
      case Repository => RepositoryOutcome(p, url, info.branch, d0, git)
      case PullRequest => PullRequestOutcome(p, url, info.prNumber, d0, git)
    }

    /** Run one git command. */
    method Run(call: GitCall, git: GitCall -> bool) returns (ok: bool)
      modifies this
      ensures ok == git(call)
      ensures disk == AfterGit(old(disk), call, ok)
      ensures gitLog == old(gitLog) + [call]
      ensures launched == old(launched)
    {
      ok := git(call);
      disk := AfterGit(disk, call, ok);
      gitLog := gitLog + [call];
    }

    /** `handleRepository`: clone the repository unless its directory exists (then pull), and check
        out the URL's branch, or failing that its tag. Only a failed clone is an error; a failed
        pull, fetch or checkout leaves whatever is there. */
    method HandleRepository(info: UrlInfo, git: GitCall -> bool) returns (r: Result<string, RepoError>)
      modifies this
      ensures var p := RepoPath(info.owner, info.repo);
        && (r.Failure? <==> p !in old(disk) && !git(Clone(CloneUrl(info.owner, info.repo), p)))
        && (r.Failure? ==> r.error == CloneFailed && disk == old(disk))
        && (r.Success? ==>
              var before := if p in old(disk) then old(disk)[p] else DefaultBranch;
              r.value == p && disk == old(disk)[p := RepositoryRef(before, info.branch, p, git)])
      ensures (r, disk) == RepositoryOutcome(RepoPath(info.owner, info.repo), CloneUrl(info.owner, info.repo),
        info.branch, old(disk), git)
      ensures gitLog == old(gitLog) + RepositoryCalls(RepoPath(info.owner, info.repo),
        CloneUrl(info.owner, info.repo), info.branch, RepoPath(info.owner, info.repo) in old(disk), git)
      ensures launched == old(launched)
    {
      var p := RepoPath(info.owner, info.repo);
      var url := CloneUrl(info.owner, info.repo);
      if p in disk {
        var _ := Run(Pull(p), git);
        assert disk == old(disk)[p := old(disk)[p]];
      } else {
        var cloned := Run(Clone(url, p), git);
        if !cloned {
          return Failure(CloneFailed);
        }
      }
      if info.branch != "" {
        ghost var log1 := gitLog;
        SwitchTo(p, info.branch, git);
        assert gitLog == old(gitLog) + ([log1[|log1| - 1]] + SwitchCalls(p, info.branch, git));
      }
      return Success(p);
    }

    /** Switch an existing directory to a branch, or failing that to a tag of that name. */
    method SwitchTo(p: string, branch: string, git: GitCall -> bool)
      requires p in disk && branch != ""
      modifies this
      ensures disk == old(disk)[p := RepositoryRef(old(disk)[p], branch, p, git)]
      ensures gitLog == old(gitLog) + SwitchCalls(p, branch, git)
      ensures launched == old(launched)
    {
      var _ := Run(Fetch(p), git);
      var switched := Run(Checkout(p, branch), git);
      if !switched {
        var tagged := Run(CheckoutTag(p, branch), git);
        if !tagged {
          assert disk == old(disk)[p := old(disk)[p]];
        }
      }
    }

    /** `handlePullRequest`: clone the repository unless its directory exists (then fetch), fetch
        the pull request's head into `pr-<n>` and check it out. A failed clone, pull-request fetch
        or checkout is an error; a clone stays in place after a later failure. */
    method HandlePullRequest(info: UrlInfo, git: GitCall -> bool) returns (r: Result<string, RepoError>)
      modifies this
      ensures var p := RepoPath(info.owner, info.repo);
        var cloneOk := p in old(disk) || git(Clone(CloneUrl(info.owner, info.repo), p));
        var fetchOk := git(FetchPR(p, info.prNumber, PrBranch(info.prNumber)));
        var checkoutOk := git(Checkout(p, PrBranch(info.prNumber)));
        && (r.Success? <==> cloneOk && fetchOk && checkoutOk)
        && (!cloneOk ==> r == Failure(CloneFailed))
        && (cloneOk && !fetchOk ==> r == Failure(FetchPrFailed))
        && (cloneOk && fetchOk && !checkoutOk ==> r == Failure(PrCheckoutFailed))
        && (r.Success? ==> r.value == p && disk == old(disk)[p := Branch(PrBranch(info.prNumber))])
        && (r.Failure? ==> disk == if p in old(disk) || !cloneOk then old(disk) else old(disk)[p := DefaultBranch])
      ensures (r, disk) == PullRequestOutcome(RepoPath(info.owner, info.repo), CloneUrl(info.owner, info.repo),
        info.prNumber, old(disk), git)
      ensures gitLog == old(gitLog) + PullRequestCalls(RepoPath(info.owner, info.repo),
        CloneUrl(info.owner, info.repo), info.prNumber, RepoPath(info.owner, info.repo) in old(disk), git)
      ensures launched == old(launched)
    {
      var p := RepoPath(info.owner, info.repo);
      var url := CloneUrl(info.owner, info.repo);
      if p in disk {
        var _ := Run(Fetch(p), git);
      } else {
        var cloned := Run(Clone(url, p), git);
        if !cloned {
          return Failure(CloneFailed);
        }
      }
      ghost var log1 := gitLog;
      r := SwitchToPullRequest(p, info.prNumber, git);
      assert gitLog == old(gitLog) + ([log1[|log1| - 1]] + PrCalls(p, info.prNumber, git));
    }

    /** Fetch a pull request into `pr-<n>` in an existing directory and check it out. */
    method SwitchToPullRequest(p: string, n: nat, git: GitCall -> bool) returns (r: Result<string, RepoError>)
      requires p in disk
      modifies this
      ensures r == if !git(FetchPR(p, n, PrBranch(n))) then Failure(FetchPrFailed)
        else if !git(Checkout(p, PrBranch(n))) then Failure(PrCheckoutFailed)
        else Success(p)
      ensures disk == if r.Success? then old(disk)[p := Branch(PrBranch(n))] else old(disk)
      ensures gitLog == old(gitLog) + PrCalls(p, n, git)
      ensures launched == old(launched)
    {
      var branch := PrBranch(n);
      var fetched := Run(FetchPR(p, n, branch), git);
      if !fetched {
        return Failure(FetchPrFailed);
      }
      var switched := Run(Checkout(p, branch), git);
      if !switched {
        return Failure(PrCheckoutFailed);
      }
      return Success(p);
    }

    /** The git commands `/open` runs for a parsed URL, by its kind. */
    function OpenCalls(info: UrlInfo, existed: bool, git: GitCall -> bool): seq<GitCall>
    {
      var p := RepoPath(info.owner, info.repo);
      var url := CloneUrl(info.owner, info.repo);
      match info.kind
      case Repository => RepositoryCalls(p, url, info.branch, existed, git)
      case PullRequest => PullRequestCalls(p, url, info.prNumber, existed, git)
    }

    /** `handleOpen`: 400 for a request without a URL or with a URL that does not parse, 500 when
        the handler or the editor fails, and otherwise 200 with the repository path after starting
        the editor on the selected target and line. */
    method HandleOpen(req: OpenRequest, git: GitCall -> bool, start: Ide.Command -> bool) returns (resp: OpenResponse)
      modifies this
      ensures resp.status in {200, 400, 500}
      ensures resp.status == 200 <==> resp.result.Success?
      ensures resp.status == 400 <==> req.url == [] || ParseGitHubURL(req.url).Failure?
      ensures req.url == [] ==> resp.result == Failure(InvalidRequest)
      ensures req.url != [] && ParseGitHubURL(req.url).Failure? ==>
        resp.result == Failure(InvalidUrl(ParseGitHubURL(req.url).error))
      ensures resp.status == 400 ==> disk == old(disk) && gitLog == old(gitLog)
      ensures req.url != [] && ParseGitHubURL(req.url).Success? ==>
        var info := ParseGitHubURL(req.url).value;
        var handled := HandlerOutcome(info, old(disk), git);
        && disk == handled.1
        && (resp.result.Failure? && resp.result.error.RepoFailed? <==> handled.0.Failure?)
        && (handled.0.Failure? ==> resp == OpenResponse(500, Failure(RepoFailed(handled.0.error))))
      ensures req.url != [] && ParseGitHubURL(req.url).Success? ==>
        var info := ParseGitHubURL(req.url).value;
        var p := RepoPath(info.owner, info.repo);
        && gitLog == old(gitLog) + OpenCalls(info, p in old(disk), git)
        && (HandlerOutcome(info, old(disk), git).0.Failure? ==> launched == old(launched))
        && (HandlerOutcome(info, old(disk), git).0.Success? ==>
              var ide := SelectIde(req.ide, config.defaultIde);
              var target := TargetPath(p, req.filePath, info.filePath);
              var line := SelectLine(req.line, info.line);
              p in disk
              && (ide !in Ide.Ides ==> resp.result == Failure(IdeFailed(Ide.UnsupportedIde(ide))))
              && (ide in Ide.Ides ==>
                    var command := Ide.LaunchCommand(ide, target, line, goos).value;
                    if start(command) then resp.result == Success(p) && launched == old(launched) + [command]
                    else resp.result == Failure(IdeFailed(Ide.StartFailed(command)))))
      ensures resp.status != 200 ==> launched == old(launched)
    {
      if req.url == "" {
        return OpenResponse(400, Failure(InvalidRequest));
      }
      var parsed := ParseGitHubURL(req.url);
      if parsed.Failure? {
        return OpenResponse(400, Failure(InvalidUrl(parsed.error)));
      }
      var info := parsed.value;
      var handled: Result<string, RepoError>;
      match info.kind {
        case Repository =>
          handled := HandleRepository(info, git);
        case PullRequest =>
          handled := HandlePullRequest(info, git);
      }
      if handled.Failure? {
        return OpenResponse(500, Failure(RepoFailed(handled.error)));
      }
      resp := LaunchEditor(req, info, handled.value, start);
    }

    /** The last part of `handleOpen`: start the selected editor on the selected target and line in
        the repository directory `p`; 200 with `p` when it started, 500 otherwise. */
    method LaunchEditor(req: OpenRequest, info: UrlInfo, p: string, start: Ide.Command -> bool) returns (resp: OpenResponse)
      modifies this
      ensures resp.status in {200, 500}
      ensures resp.status == 200 <==> resp.result.Success?
      ensures disk == old(disk) && gitLog == old(gitLog)
      ensures var ide := SelectIde(req.ide, config.defaultIde);
        var target := TargetPath(p, req.filePath, info.filePath);
        var line := SelectLine(req.line, info.line);
        && (ide !in Ide.Ides ==> resp.result == Failure(IdeFailed(Ide.UnsupportedIde(ide))))
        && (ide in Ide.Ides ==>
              var command := Ide.LaunchCommand(ide, target, line, goos).value;
              if start(command) then resp.result == Success(p) && launched == old(launched) + [command]
              else resp.result == Failure(IdeFailed(Ide.StartFailed(command))))
      ensures resp.status != 200 ==> launched == old(launched)
    {
      var target := TargetPath(p, req.filePath, info.filePath);
      var line := SelectLine(req.line, info.line);
      var ide := SelectIde(req.ide, config.defaultIde);
      var outcome := Ide.OpenInIde(ide, target, line, goos, start);
      if outcome.Failure? {
        return OpenResponse(500, Failure(IdeFailed(outcome.error)));
      }
      launched := launched + [outcome.value];
      return OpenResponse(200, Success(p));
    }
  }
}
