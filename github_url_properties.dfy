/**
  Properties of the GitHub URL parser: each shape matcher against the text its regular expression
  describes, the scan for `github.com/`, the fixed pattern order, and worked examples.
 */
module GitHubUrlProperties {
  import opened Wrappers
  import opened Text
  import opened GitHubUrl

  // ---------------------------------------------------------------------------------------
  // Each shape matcher against the text the regular expression describes

  /** `<owner>/<repo>/pull/<digits><tail>`, where the tail does not continue the digits, is a pull
      request whose number is the digits; the tail (such as `/files`) is ignored. */
  lemma PullShape(owner: string, repo: string, digits: string, tail: string)
    requires IsSegment(owner) && IsSegment(repo) && digits != [] && AllDigits(digits)
    requires tail == [] || !IsDigit(tail[0])
    ensures MatchPull(owner + "/" + (repo + "/" + ("pull" + "/" + (digits + tail))))
         == Some(UrlInfo(owner, repo, PullRequest, "", "", 0, Atoi(digits)))
  {
    SplitOwnerRepoOf(owner, repo, "pull" + "/" + (digits + tail));
    CutSlashOf("pull", digits + tail);
    DigitPrefixOf(digits, tail);
  }

  /** A `pull/` not followed by a digit is not a pull request. */
  lemma PullWithoutNumber(owner: string, repo: string, after: string)
    requires IsSegment(owner) && IsSegment(repo)
    requires after == [] || !IsDigit(after[0])
    ensures MatchPull(owner + "/" + (repo + "/" + ("pull" + "/" + after))) == None
  {
    SplitOwnerRepoOf(owner, repo, "pull" + "/" + after);
    CutSlashOf("pull", after);
  }

  /** A blob path ending in `#L<digits>` after a non-empty file path: the digits are the line. */
  lemma FileAndLineWithFragment(file: string, digits: string)
    requires file != [] && '\n' !in file && digits != [] && AllDigits(digits)
    ensures FileAndLine(file + "#L" + digits) == Some((file, Atoi(digits)))
  {
    FragmentParts(file, digits);
    FragmentHasNoNewline(file, digits);
    FileAndLineOf(file + "#L" + digits, file, digits);
  }

  /** A path whose digit suffix follows `#L` after the file path. */
  lemma FileAndLineOf(p: string, file: string, digits: string)
    requires p != [] && '\n' !in p && digits != [] && DigitSuffix(p) == digits
    requires var k := |p| - |digits|; k >= 3 && p[k - 2] == '#' && p[k - 1] == 'L' && p[..k - 2] == file
    ensures FileAndLine(p) == Some((file, Atoi(digits)))
  {
  }

  /** In `<file>#L<digits>` the digit suffix is the digits, preceded by `#L`, preceded by the file. */
  lemma FragmentParts(file: string, digits: string)
    requires file != [] && AllDigits(digits)
    ensures var p := file + "#L" + digits;
      var k := |p| - |digits|;
      && DigitSuffix(p) == digits && k >= 3
      && p[k - 2] == '#' && p[k - 1] == 'L' && p[..k - 2] == file
  {
    var a := file + "#L";
    var p := a + digits;
    assert |a| == |file| + 2;
    assert a[|file|] == '#' && a[|file| + 1] == 'L';
    assert !IsDigit(a[|a| - 1]);
    DigitSuffixOf(a, digits);
    var k := |p| - |digits|;
    assert k == |file| + 2;
    assert p[k - 2] == a[|file|] && p[k - 1] == a[|file| + 1];
    assert p[..k - 2] == file;
  }

  /** `<file>#L<digits>` has no newline when the file path has none. */
  lemma FragmentHasNoNewline(file: string, digits: string)
    requires '\n' !in file && AllDigits(digits)
    ensures '\n' !in file + "#L" + digits
  {
    var p := file + "#L" + digits;
    forall i | 0 <= i < |p| ensures p[i] != '\n' {
      if i < |file| { assert p[i] == file[i]; }
      else if i >= |file| + 2 { assert p[i] == digits[i - |file| - 2]; }
      else { assert p[i] == "#L"[i - |file|]; }
    }
  }

  /** A blob path without any '#' is all file path, with line 0. */
  lemma FileAndLineWithoutFragment(file: string)
    requires file != [] && '\n' !in file && '#' !in file
    ensures FileAndLine(file) == Some((file, 0))
  {
    var d := DigitSuffix(file);
    var k := |file| - |d|;
    assert !(d != [] && k >= 3 && file[k - 2] == '#') by {
      if d != [] && k >= 3 {
        assert file[k - 2] in file;
      }
    }
  }

  /** `<owner>/<repo>/blob/<branch>/<path>`: the branch is the single segment after `blob/` and
      the path (without a line fragment) is the file path; the pull pattern does not match. */
  lemma BlobShape(owner: string, repo: string, branch: string, path: string)
    requires IsSegment(owner) && IsSegment(repo) && IsSegment(branch)
    ensures var rest := owner + "/" + (repo + "/" + ("blob" + "/" + (branch + "/" + path)));
      && MatchPull(rest) == None
      && MatchBlob(rest) == match FileAndLine(path)
           case None => None
           case Some((file, line)) => Some(UrlInfo(owner, repo, Repository, branch, file, line, 0))
  {
    SplitOwnerRepoOf(owner, repo, "blob" + "/" + (branch + "/" + path));
    CutSlashOf("blob", branch + "/" + path);
    CutSlashOf(branch, path);
  }

  /** `<owner>/<repo>/tree/<branch>` optionally followed by `/<path>`: the branch is one segment
      and the path, or "", is the file path; the pull and blob patterns do not match. */
  lemma TreeShape(owner: string, repo: string, branch: string, path: string)
    requires IsSegment(owner) && IsSegment(repo) && IsSegment(branch) && '\n' !in path
    ensures var rest := owner + "/" + (repo + "/" + ("tree" + "/" + (branch + (if path == [] then "" else "/" + path))));
      && MatchPull(rest) == None
      && MatchBlob(rest) == None
      && MatchTree(rest) == Some(UrlInfo(owner, repo, Repository, branch, path, 0, 0))
  {
    if path == [] {
      TreeBranchOnly(owner, repo, branch);
    } else {
      TreeWithPath(owner, repo, branch, path);
    }
  }

  lemma TreeBranchOnly(owner: string, repo: string, branch: string)
    requires IsSegment(owner) && IsSegment(repo) && IsSegment(branch)
    ensures var rest := owner + "/" + (repo + "/" + ("tree" + "/" + (branch + "")));
      && MatchPull(rest) == None
      && MatchBlob(rest) == None
      && MatchTree(rest) == Some(UrlInfo(owner, repo, Repository, branch, "", 0, 0))
  {
    assert branch + "" == branch;
    var rest := owner + "/" + (repo + "/" + ("tree" + "/" + branch));
    SplitOwnerRepoOf(owner, repo, "tree" + "/" + branch);
    CutSlashOf("tree", branch);
    TreeOf(rest, owner, repo, "tree" + "/" + branch, branch, branch, "");
  }

  lemma TreeWithPath(owner: string, repo: string, branch: string, path: string)
    requires IsSegment(owner) && IsSegment(repo) && IsSegment(branch) && path != [] && '\n' !in path
    ensures var rest := owner + "/" + (repo + "/" + ("tree" + "/" + (branch + ("/" + path))));
      && MatchPull(rest) == None
      && MatchBlob(rest) == None
      && MatchTree(rest) == Some(UrlInfo(owner, repo, Repository, branch, path, 0, 0))
  {
    var after := branch + ("/" + path);
    assert after == branch + "/" + path;
    var rest := owner + "/" + (repo + "/" + ("tree" + "/" + after));
    SplitOwnerRepoOf(owner, repo, "tree" + "/" + after);
    CutSlashOf("tree", after);
    CutSlashOf(branch, path);
    TreeOf(rest, owner, repo, "tree" + "/" + after, after, branch, path);
  }

  /** The tree section cut into its parts: only the tree pattern matches. */
  lemma TreeOf(rest: string, owner: string, repo: string, tail: string, after: string, branch: string, path: string)
    requires SplitOwnerRepo(rest) == Some((owner, repo, tail)) && CutSlash(tail) == Some(("tree", after))
    requires IsSegment(branch) && '\n' !in path
    requires if path == [] then after == branch else CutSlash(after) == Some((branch, path))
    ensures MatchPull(rest) == None && MatchBlob(rest) == None
    ensures MatchTree(rest) == Some(UrlInfo(owner, repo, Repository, branch, path, 0, 0))
  {
  }

  /** `<owner>/<repo>` with nothing after it matches only the bare repository pattern. */
  lemma RepoShape(owner: string, repo: string)
    requires IsSegment(owner) && IsSegment(repo)
    ensures var rest := owner + "/" + repo;
      && MatchPull(rest) == None && MatchBlob(rest) == None && MatchTree(rest) == None
      && MatchRepo(rest) == Some(UrlInfo(owner, repo, Repository, "", "", 0, 0))
  {
    CutSlashOf(owner, repo);
  }

  /** The bare repository pattern needs the end of the text right after the repository. */
  lemma RepoNeedsEnd(owner: string, repo: string, tail: string)
    requires IsSegment(owner) && IsSegment(repo)
    ensures MatchRepo(owner + "/" + (repo + "/" + tail)) == None
  {
    CutSlashOf(owner, repo + "/" + tail);
    assert (repo + "/" + tail)[|repo|] == '/';
  }

  /** `<owner>/<repo>/<kind>/<after>` whose third segment is none of `pull`, `blob`, `tree`
      (for example `issues`) matches no pattern. */
  lemma OtherKindShape(owner: string, repo: string, kind: string, after: string)
    requires IsSegment(owner) && IsSegment(repo) && '/' !in kind
    requires kind != "pull" && kind != "blob" && kind != "tree"
    ensures var rest := owner + "/" + (repo + "/" + (kind + "/" + after));
      MatchPull(rest) == None && MatchBlob(rest) == None && MatchTree(rest) == None && MatchRepo(rest) == None
  {
    SplitOwnerRepoOf(owner, repo, kind + "/" + after);
    CutSlashOf(kind, after);
    RepoNeedsEnd(owner, repo, kind + "/" + after);
  }

  /** `<owner>/<repo>/pull/<after>` where no digit follows `pull/` matches no pattern. */
  lemma PullWithoutNumberShape(owner: string, repo: string, after: string)
    requires IsSegment(owner) && IsSegment(repo)
    requires after == [] || !IsDigit(after[0])
    ensures var rest := owner + "/" + (repo + "/" + ("pull" + "/" + after));
      MatchPull(rest) == None && MatchBlob(rest) == None && MatchTree(rest) == None && MatchRepo(rest) == None
  {
    SplitOwnerRepoOf(owner, repo, "pull" + "/" + after);
    CutSlashOf("pull", after);
    RepoNeedsEnd(owner, repo, "pull" + "/" + after);
  }

  /** `<owner>/<repo>/<last>` with a slash-free third segment (`issues`, `pull`, `blob`) matches no
      pattern: every pattern but the bare one needs a '/' after the third segment. */
  lemma ThreeSegments(owner: string, repo: string, last: string)
    requires IsSegment(owner) && IsSegment(repo) && '/' !in last
    ensures var rest := owner + "/" + (repo + "/" + last);
      MatchPull(rest) == None && MatchBlob(rest) == None && MatchTree(rest) == None && MatchRepo(rest) == None
  {
    SplitOwnerRepoOf(owner, repo, last);
    RepoNeedsEnd(owner, repo, last);
  }

  /** A blob URL whose branch is not followed by `/<path>` matches no pattern. */
  lemma BlobWithoutPath(owner: string, repo: string, branch: string)
    requires IsSegment(owner) && IsSegment(repo) && '/' !in branch
    ensures var rest := owner + "/" + (repo + "/" + ("blob" + "/" + branch));
      MatchPull(rest) == None && MatchBlob(rest) == None && MatchTree(rest) == None && MatchRepo(rest) == None
  {
    SplitOwnerRepoOf(owner, repo, "blob" + "/" + branch);
    CutSlashOf("blob", branch);
    RepoNeedsEnd(owner, repo, "blob" + "/" + branch);
  }

  // ---------------------------------------------------------------------------------------
  // Scanning for `github.com/`

  /** Text without a 'g' cannot start a match. */
  lemma {:induction false} FindMatchSkip(p: Pattern, a: string, b: string)
    requires 'g' !in a
    ensures FindMatch(p, a + b) == FindMatch(p, b)
    decreases |a|
  {
    if a != [] {
      ConcatParts(a, b);
      assert (a + b)[0] != Host[0];
      FindMatchSkip(p, a[1..], b);
    } else {
      assert a + b == b;
    }
  }

  /** Without `github.com/` no pattern matches. */
  lemma {:induction false} FindMatchAbsent(p: Pattern, s: string)
    requires !Contains(s, Host)
    ensures FindMatch(p, s) == None
    decreases |s|
  {
    if |s| >= |Host| {
      FindMatchAbsent(p, s[1..]);
    }
  }

  lemma HostTailHasNoG()
    ensures 'g' !in Host[1..]
  {
    assert Host[1..] == "ithub.com/";
  }

  /** With a single `github.com/`, preceded by text without a 'g' (such as `https://`), each
      pattern is matched against exactly the text after it. */
  lemma FindMatchAfterHost(p: Pattern, pre: string, rest: string)
    requires 'g' !in pre && !Contains(rest, Host)
    ensures FindMatch(p, pre + Host + rest) == Apply(p, rest)
  {
    FindMatchSkip(p, pre, Host + rest);
    assert pre + Host + rest == pre + (Host + rest);
    ConcatParts(Host, rest);
    if Apply(p, rest).None? {
      HostTailHasNoG();
      FindMatchSkip(p, Host[1..], rest);
      FindMatchAbsent(p, rest);
    }
  }

  // ---------------------------------------------------------------------------------------
  // The parser

  /** Exactly one trailing '/' is removed before matching. */
  lemma ParseTrimsOneSlash(url: string)
    ensures ParseGitHubURL(url + "/") == FirstMatching(Patterns, url)
    ensures !HasSuffix(url, "/") ==> ParseGitHubURL(url) == FirstMatching(Patterns, url)
  {
    ConcatParts(url, "/");
  }

  /** For a URL with a single `github.com/`, preceded by text without a 'g', the patterns are tried
      in the order pull, blob, tree, bare repository on the text after it (without its trailing
      '/'), and the first that matches decides. */
  lemma ParseInOrder(pre: string, rest: string)
    requires 'g' !in pre && rest != [] && !Contains(rest, Host) && !HasSuffix(rest, "/")
    ensures ParseGitHubURL(pre + Host + rest + "/") == ParseGitHubURL(pre + Host + rest)
    ensures ParseGitHubURL(pre + Host + rest) ==
        if MatchPull(rest).Some? then Success(MatchPull(rest).value)
        else if MatchBlob(rest).Some? then Success(MatchBlob(rest).value)
        else if MatchTree(rest).Some? then Success(MatchTree(rest).value)
        else if MatchRepo(rest).Some? then Success(MatchRepo(rest).value)
        else Failure(UnsupportedFormat(pre + Host + rest))
  {
    var url := pre + Host + rest;
    ParseTrimsOneSlash(url);
    HostUrlHasNoTrailingSlash(pre, rest);
    PatternsAfterHost(pre, rest);
    FirstMatchingUnrolled(url);
  }

  /** Each pattern, applied to a URL with a single `github.com/`, sees exactly the text after it. */
  lemma PatternsAfterHost(pre: string, rest: string)
    requires 'g' !in pre && !Contains(rest, Host)
    ensures FindMatch(PullPattern, pre + Host + rest) == MatchPull(rest)
    ensures FindMatch(BlobPattern, pre + Host + rest) == MatchBlob(rest)
    ensures FindMatch(TreePattern, pre + Host + rest) == MatchTree(rest)
    ensures FindMatch(RepoPattern, pre + Host + rest) == MatchRepo(rest)
  {
    FindMatchAfterHost(PullPattern, pre, rest);
    FindMatchAfterHost(BlobPattern, pre, rest);
    FindMatchAfterHost(TreePattern, pre, rest);
    FindMatchAfterHost(RepoPattern, pre, rest);
  }

  lemma HostUrlHasNoTrailingSlash(pre: string, rest: string)
    requires rest != [] && !HasSuffix(rest, "/")
    ensures !HasSuffix(pre + Host + rest, "/")
  {
    var url := pre + Host + rest;
    assert url[|url| - 1] == rest[|rest| - 1];
  }

  /** The pattern loop written out for the four patterns. */
  lemma FirstMatchingUnrolled(url: string)
    ensures FirstMatching(Patterns, url) ==
        if FindMatch(PullPattern, url).Some? then Success(FindMatch(PullPattern, url).value)
        else if FindMatch(BlobPattern, url).Some? then Success(FindMatch(BlobPattern, url).value)
        else if FindMatch(TreePattern, url).Some? then Success(FindMatch(TreePattern, url).value)
        else if FindMatch(RepoPattern, url).Some? then Success(FindMatch(RepoPattern, url).value)
        else Failure(UnsupportedFormat(url))
  {
    var ps1, ps2, ps3 := [BlobPattern, TreePattern, RepoPattern], [TreePattern, RepoPattern], [RepoPattern];
    assert Patterns[1..] == ps1 && ps1[1..] == ps2 && ps2[1..] == ps3 && ps3[1..] == [];
    assert FirstMatching(ps3, url) == if FindMatch(RepoPattern, url).Some? then Success(FindMatch(RepoPattern, url).value)
      else Failure(UnsupportedFormat(url));
    assert FirstMatching(ps2, url) == if FindMatch(TreePattern, url).Some? then Success(FindMatch(TreePattern, url).value)
      else FirstMatching(ps3, url);
    assert FirstMatching(ps1, url) == if FindMatch(BlobPattern, url).Some? then Success(FindMatch(BlobPattern, url).value)
      else FirstMatching(ps2, url);
  }

  /** Every successful parse names an owner and repository that appear in the URL as
      `github.com/<owner>/<repo>`. */
  lemma ParsedNamesOccurInUrl(url: string)
    requires ParseGitHubURL(url).Success?
    ensures Contains(url, HostPath(ParseGitHubURL(url).value))
  {
    var u := TrimSuffix(url, "/");
    if HasSuffix(url, "/") {
      assert url == u + "/";
      ContainsInPrefix(u, "/", HostPath(ParseGitHubURL(url).value));
    }
  }

  // ---------------------------------------------------------------------------------------
  // Whole URLs of each kind, for a URL with one `github.com/` preceded by text without a 'g'
  // (such as `https://` or `http://www.`); a trailing '/' makes no difference

  /** A pull-request URL gives the owner, the repository and the number. */
  lemma ParsePullRequestUrl(pre: string, owner: string, repo: string, digits: string, tail: string)
    requires 'g' !in pre && IsSegment(owner) && IsSegment(repo) && digits != [] && AllDigits(digits)
    requires tail == [] || !IsDigit(tail[0])
    requires var rest := owner + "/" + (repo + "/" + ("pull" + "/" + (digits + tail)));
      !Contains(rest, Host) && !HasSuffix(rest, "/")
    ensures var url := pre + Host + (owner + "/" + (repo + "/" + ("pull" + "/" + (digits + tail))));
      && ParseGitHubURL(url) == Success(UrlInfo(owner, repo, PullRequest, "", "", 0, Atoi(digits)))
      && ParseGitHubURL(url + "/") == ParseGitHubURL(url)
  {
    var rest := owner + "/" + (repo + "/" + ("pull" + "/" + (digits + tail)));
    PullShape(owner, repo, digits, tail);
    ParseInOrder(pre, rest);
  }

  /** A file URL ending in `#L<digits>` gives the branch, the file path before the fragment and the
      line. */
  lemma ParseBlobUrlWithLine(pre: string, owner: string, repo: string, branch: string, file: string, digits: string)
    requires 'g' !in pre && IsSegment(owner) && IsSegment(repo) && IsSegment(branch)
    requires file != [] && '\n' !in file && digits != [] && AllDigits(digits)
    requires !Contains(owner + "/" + (repo + "/" + ("blob" + "/" + (branch + "/" + (file + "#L" + digits)))), Host)
    ensures var url := pre + Host + (owner + "/" + (repo + "/" + ("blob" + "/" + (branch + "/" + (file + "#L" + digits)))));
      && ParseGitHubURL(url) == Success(UrlInfo(owner, repo, Repository, branch, file, Atoi(digits), 0))
      && ParseGitHubURL(url + "/") == ParseGitHubURL(url)
  {
    var path := file + "#L" + digits;
    var rest := owner + "/" + (repo + "/" + ("blob" + "/" + (branch + "/" + path)));
    BlobShape(owner, repo, branch, path);
    FileAndLineWithFragment(file, digits);
    var t3 := branch + "/" + path;
    var t2 := "blob" + "/" + t3;
    var t1 := repo + "/" + t2;
    EndsInDigit(file + "#L", digits);
    NoSlashAtEnd(branch + "/", path);
    NoSlashAtEnd("blob" + "/", t3);
    NoSlashAtEnd(repo + "/", t2);
    NoSlashAtEnd(owner + "/", t1);
    ParseInOrder(pre, rest);
  }

  lemma NoSlashAtEnd(a: string, b: string)
    requires b != [] && !HasSuffix(b, "/")
    ensures !HasSuffix(a + b, "/")
  {
    assert (a + b)[|a + b| - 1] == b[|b| - 1];
  }

  lemma EndsInDigit(a: string, digits: string)
    requires digits != [] && AllDigits(digits)
    ensures !HasSuffix(a + digits, "/")
  {
    assert (a + digits)[|a + digits| - 1] == digits[|digits| - 1];
  }

  /** A file URL without any '#' gives the branch and the whole path, with line 0. */
  lemma ParseBlobUrl(pre: string, owner: string, repo: string, branch: string, file: string)
    requires 'g' !in pre && IsSegment(owner) && IsSegment(repo) && IsSegment(branch)
    requires file != [] && '\n' !in file && '#' !in file
    requires var rest := owner + "/" + (repo + "/" + ("blob" + "/" + (branch + "/" + file)));
      !Contains(rest, Host) && !HasSuffix(rest, "/")
    ensures var url := pre + Host + (owner + "/" + (repo + "/" + ("blob" + "/" + (branch + "/" + file))));
      && ParseGitHubURL(url) == Success(UrlInfo(owner, repo, Repository, branch, file, 0, 0))
      && ParseGitHubURL(url + "/") == ParseGitHubURL(url)
  {
    var rest := owner + "/" + (repo + "/" + ("blob" + "/" + (branch + "/" + file)));
    BlobShape(owner, repo, branch, file);
    FileAndLineWithoutFragment(file);
    ParseInOrder(pre, rest);
  }

  /** A directory URL gives the branch and the directory path ("" for the branch root). */
  lemma ParseTreeUrl(pre: string, owner: string, repo: string, branch: string, path: string)
    requires 'g' !in pre && IsSegment(owner) && IsSegment(repo) && IsSegment(branch) && '\n' !in path
    requires var rest := owner + "/" + (repo + "/" + ("tree" + "/" + (branch + (if path == [] then "" else "/" + path))));
      !Contains(rest, Host) && !HasSuffix(rest, "/")
    ensures var url := pre + Host + (owner + "/" + (repo + "/" + ("tree" + "/" + (branch + (if path == [] then "" else "/" + path)))));
      && ParseGitHubURL(url) == Success(UrlInfo(owner, repo, Repository, branch, path, 0, 0))
      && ParseGitHubURL(url + "/") == ParseGitHubURL(url)
  {
    var rest := owner + "/" + (repo + "/" + ("tree" + "/" + (branch + (if path == [] then "" else "/" + path))));
    TreeShape(owner, repo, branch, path);
    ParseInOrder(pre, rest);
  }

  /** A bare repository URL, with or without a trailing '/', gives the owner and repository. */
  lemma ParseRepoUrl(pre: string, owner: string, repo: string)
    requires 'g' !in pre && IsSegment(owner) && IsSegment(repo) && !Contains(owner + "/" + repo, Host)
    ensures var url := pre + Host + (owner + "/" + repo);
      && ParseGitHubURL(url) == Success(UrlInfo(owner, repo, Repository, "", "", 0, 0))
      && ParseGitHubURL(url + "/") == ParseGitHubURL(url)
  {
    var rest := owner + "/" + repo;
    RepoShape(owner, repo);
    assert rest[|rest| - 1] == repo[|repo| - 1];
    ParseInOrder(pre, rest);
  }

  /** A URL whose third segment is none of `pull`, `blob`, `tree` (issues, actions, wiki...) is
      rejected with the URL, without its trailing '/', in the error. */
  lemma ParseRejectsOtherKind(pre: string, owner: string, repo: string, kind: string, after: string)
    requires 'g' !in pre && IsSegment(owner) && IsSegment(repo) && '/' !in kind
    requires kind != "pull" && kind != "blob" && kind != "tree"
    requires var rest := owner + "/" + (repo + "/" + (kind + "/" + after));
      !Contains(rest, Host) && !HasSuffix(rest, "/")
    ensures var url := pre + Host + (owner + "/" + (repo + "/" + (kind + "/" + after)));
      && ParseGitHubURL(url) == Failure(UnsupportedFormat(url))
      && ParseGitHubURL(url + "/") == ParseGitHubURL(url)
  {
    var rest := owner + "/" + (repo + "/" + (kind + "/" + after));
    OtherKindShape(owner, repo, kind, after);
    ParseInOrder(pre, rest);
  }

  /** A pull-request URL whose `pull/` is not followed by a digit (`.../pull/abc`) is rejected. */
  lemma ParseRejectsPullWithoutNumber(pre: string, owner: string, repo: string, after: string)
    requires 'g' !in pre && IsSegment(owner) && IsSegment(repo)
    requires after == [] || !IsDigit(after[0])
    requires var rest := owner + "/" + (repo + "/" + ("pull" + "/" + after));
      !Contains(rest, Host) && !HasSuffix(rest, "/")
    ensures var url := pre + Host + (owner + "/" + (repo + "/" + ("pull" + "/" + after)));
      ParseGitHubURL(url) == Failure(UnsupportedFormat(url))
  {
    var rest := owner + "/" + (repo + "/" + ("pull" + "/" + after));
    PullWithoutNumberShape(owner, repo, after);
    ParseInOrder(pre, rest);
  }

  /** A URL without `github.com/` is rejected. */
  lemma ParseRejectsOtherHosts(url: string)
    requires !Contains(url, Host)
    ensures ParseGitHubURL(url) == Failure(UnsupportedFormat(TrimSuffix(url, "/")))
  {
    var u := TrimSuffix(url, "/");
    if HasSuffix(url, "/") {
      assert url == u + "/";
      if Contains(u, Host) {
        ContainsInPrefix(u, "/", Host);
        assert false;
      }
    }
    FindMatchAbsent(PullPattern, u);
    FindMatchAbsent(BlobPattern, u);
    FindMatchAbsent(TreePattern, u);
    FindMatchAbsent(RepoPattern, u);
    FirstMatchingUnrolled(u);
  }
}
