/**
  The service configuration and where a repository lives on disk. Path-mapping rules send a
  repository to a local directory; they are consulted in three tiers, exact `owner/repo` first,
  then `owner`, then the wildcard `*`, each tier taking the first rule in list order, and when no
  rule applies the repository goes to the cache directory. The home directory is a parameter.
 */
module RepoConfig {
  import opened Text

  /** The cache directory below the home directory. */
  const DefaultCacheDir: string := ".github-browser/repos"

  const Wildcard: string := "*"

  /** A rule: `pattern` is "owner/repo", "owner" or "*". */
  datatype PathMapping = PathMapping(pattern: string, localPath: string)

  datatype Config = Config(
    port: int,
    defaultIde: string,
    gitHubToken: string,
    cacheDir: string,
    pathMappings: seq<PathMapping>)

  /** No rule has this pattern. */
  predicate NoRule(rules: seq<PathMapping>, pattern: string) {
    forall m :: m in rules ==> m.pattern != pattern
  }

  /** The position of the first rule with this pattern, or |rules| when there is none. */
  function FirstRule(rules: seq<PathMapping>, pattern: string): (i: nat)
    ensures i <= |rules|
    ensures i < |rules| ==> rules[i].pattern == pattern
    ensures forall j :: 0 <= j < i ==> rules[j].pattern != pattern
    ensures i == |rules| <==> NoRule(rules, pattern)
  {
    if rules == [] then 0
    else if rules[0].pattern == pattern then 0
    else 1 + FirstRule(rules[1..], pattern)
  }

  /** `expandPath`: a leading '~' stands for the home directory. */
  function ExpandPath(path: string, home: string): (r: string)
    ensures !HasPrefix(path, "~") ==> r == path
    ensures HasPrefix(path, "~") ==> HasSuffix(r, path[1..]) && HasPrefix(r, home)
    ensures home != [] && home[0] != '~' ==> !HasPrefix(r, "~")
  {
    if |path| > 0 && path[0] == '~' then Join(home, path[1..]) else path
  }

  /** The directory used when no rule applies: the configured cache directory, or the default one
      below the home directory when none is configured. */
  function CacheRoot(c: Config, home: string): (d: string)
    ensures c.cacheDir != [] ==> d == c.cacheDir
    ensures c.cacheDir == [] ==> HasSuffix(d, DefaultCacheDir) && HasPrefix(d, home)
  {
    if c.cacheDir == "" then Join(home, DefaultCacheDir) else c.cacheDir
  }

  /** `Config.GetRepoPath`: the local directory of `owner/repo`. It never fails. Unless an exact
      rule names the directory, the directory is named after the repository; below a wildcard rule
      or the cache directory, after `owner-repo`. */
  function GetRepoPath(c: Config, owner: string, repo: string, home: string): (r: string)
    ensures NoRule(c.pathMappings, owner + "/" + repo) ==> HasSuffix(r, repo)
    ensures NoRule(c.pathMappings, owner + "/" + repo) && NoRule(c.pathMappings, owner)
      ==> HasSuffix(r, owner + "-" + repo)
  {
    var rules := c.pathMappings;
    var exact := FirstRule(rules, owner + "/" + repo);
    if exact < |rules| then ExpandPath(rules[exact].localPath, home)
    else
      var byOwner := FirstRule(rules, owner);
      if byOwner < |rules| then Join(ExpandPath(rules[byOwner].localPath, home), repo)
      else
        var any := FirstRule(rules, Wildcard);
        var parent := if any < |rules| then ExpandPath(rules[any].localPath, home) else CacheRoot(c, home);
        JoinDashed(parent, owner, repo);
        Join(parent, owner + "-" + repo)
  }

  /** A directory joined with `<owner>-<repo>` ends with that name, and so with the repository's. */
  lemma JoinDashed(dir: string, owner: string, repo: string)
    ensures HasSuffix(Join(dir, owner + "-" + repo), owner + "-" + repo)
    ensures HasSuffix(Join(dir, owner + "-" + repo), repo)
  {
    var n := owner + "-" + repo;
    var r := Join(dir, n);
    assert |n| == |owner| + 1 + |repo|;
    assert n[|n| - |repo|..] == repo;
    assert r[|r| - |repo|..] == r[|r| - |n|..][|n| - |repo|..];
  }

  // ---------------------------------------------------------------------------------------
  // Properties

  /** The first rule with a pattern is the one at the first position holding it. */
  lemma {:induction false} FirstRuleAt(rules: seq<PathMapping>, pattern: string, i: nat)
    requires i < |rules| && rules[i].pattern == pattern
    requires forall j :: 0 <= j < i ==> rules[j].pattern != pattern
    ensures FirstRule(rules, pattern) == i
  {
    if i > 0 {
      FirstRuleAt(rules[1..], pattern, i - 1);
    }
  }

  /** Rules after the first one with a pattern do not change which rule is first. */
  lemma {:induction false} FirstRuleAppend(rules: seq<PathMapping>, more: seq<PathMapping>, pattern: string)
    requires !NoRule(rules, pattern)
    ensures FirstRule(rules + more, pattern) == FirstRule(rules, pattern)
  {
    var i := FirstRule(rules, pattern);
    FirstRuleAt(rules + more, pattern, i);
  }

  /** Tier 1: the first exact `owner/repo` rule decides, whatever rules for the owner or the
      wildcard precede it in the list. */
  lemma GetRepoPathExact(c: Config, owner: string, repo: string, home: string, i: nat)
    requires i < |c.pathMappings| && c.pathMappings[i].pattern == owner + "/" + repo
    requires forall j :: 0 <= j < i ==> c.pathMappings[j].pattern != owner + "/" + repo
    ensures GetRepoPath(c, owner, repo, home) == ExpandPath(c.pathMappings[i].localPath, home)
  {
    FirstRuleAt(c.pathMappings, owner + "/" + repo, i);
  }

  /** Tier 2: without an exact rule, the first rule for the owner gives the parent directory. */
  lemma GetRepoPathOwner(c: Config, owner: string, repo: string, home: string, i: nat)
    requires NoRule(c.pathMappings, owner + "/" + repo)
    requires i < |c.pathMappings| && c.pathMappings[i].pattern == owner
    requires forall j :: 0 <= j < i ==> c.pathMappings[j].pattern != owner
    ensures GetRepoPath(c, owner, repo, home) == Join(ExpandPath(c.pathMappings[i].localPath, home), repo)
  {
    FirstRuleAt(c.pathMappings, owner, i);
  }

  /** Tier 3: without exact or owner rules, the first wildcard rule gives the parent directory of
      `owner-repo`. */
  lemma GetRepoPathWildcard(c: Config, owner: string, repo: string, home: string, i: nat)
    requires NoRule(c.pathMappings, owner + "/" + repo) && NoRule(c.pathMappings, owner)
    requires i < |c.pathMappings| && c.pathMappings[i].pattern == Wildcard
    requires forall j :: 0 <= j < i ==> c.pathMappings[j].pattern != Wildcard
    ensures GetRepoPath(c, owner, repo, home)
         == Join(ExpandPath(c.pathMappings[i].localPath, home), owner + "-" + repo)
  {
    FirstRuleAt(c.pathMappings, Wildcard, i);
  }

  /** Without any applicable rule the repository lives in the cache directory as `owner-repo`; an
      empty cache directory setting means `<home>/.github-browser/repos`. */
  lemma GetRepoPathDefault(c: Config, owner: string, repo: string, home: string)
    requires NoRule(c.pathMappings, owner + "/" + repo) && NoRule(c.pathMappings, owner)
    requires NoRule(c.pathMappings, Wildcard)
    ensures c.cacheDir != [] ==> GetRepoPath(c, owner, repo, home) == Join(c.cacheDir, owner + "-" + repo)
    ensures c.cacheDir == [] ==>
      GetRepoPath(c, owner, repo, home) == Join(Join(home, DefaultCacheDir), owner + "-" + repo)
  {
  }

  /** With no rules at all, a configured cache directory and a non-empty name, the path is the
      cache directory, '/', `owner-repo`. */
  lemma GetRepoPathNoRules(c: Config, owner: string, repo: string, home: string)
    requires c.pathMappings == [] && c.cacheDir != []
    ensures GetRepoPath(c, owner, repo, home) == c.cacheDir + "/" + (owner + "-" + repo)
  {
    assert owner + "-" + repo != [] by {
      assert |owner + "-" + repo| == |owner| + 1 + |repo|;
    }
  }

  /** Rules appended to the list never override a repository that already has an exact rule. */
  lemma GetRepoPathAppendRules(c: Config, more: seq<PathMapping>, owner: string, repo: string, home: string)
    requires !NoRule(c.pathMappings, owner + "/" + repo)
    ensures GetRepoPath(c.(pathMappings := c.pathMappings + more), owner, repo, home)
         == GetRepoPath(c, owner, repo, home)
  {
    FirstRuleAppend(c.pathMappings, more, owner + "/" + repo);
  }

  /** Expanding an expanded path changes nothing when the home directory is set and does not start
      with '~'. */
  lemma ExpandPathIdempotent(path: string, home: string)
    requires home != [] && home[0] != '~'
    ensures ExpandPath(ExpandPath(path, home), home) == ExpandPath(path, home)
  {
  }

  /** `~` alone is the home directory; `~name` is `<home>/name`. */
  lemma ExpandPathHome(rest: string, home: string)
    requires home != []
    ensures ExpandPath("~", home) == home
    ensures rest != [] ==> ExpandPath("~" + rest, home) == home + "/" + rest
  {
    assert ("~" + rest)[1..] == rest;
  }
}
