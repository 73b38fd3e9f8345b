# github-browser: a Dafny model of the local "open in editor" service

github-browser lets a user jump from a page on github.com to the same repository, branch, pull
request or file in a local editor. A browser extension classifies the page it runs on and sends
the page's URL to a small local HTTP service. The service parses the URL, makes sure the
repository is cloned into its cache directory with the right branch, tag or pull request checked
out, and starts the chosen editor on the target file and line.

The project models the core of that service and of the extension's page classification:

- `wrappers.dfy` holds `Option` and `Result`.
- `text.dfy` holds the string operations the Go code relies on: `strings.TrimSuffix`,
  `strings.ReplaceAll`, `strings.Contains`, `strconv.Atoi` on digit strings (with Go's 64-bit
  `int` range), decimal formatting
  with `%d`, and `filepath.Join` of two elements.
- `github_url.dfy` models `ParseGitHubURL`. The four regular expressions are tried in order:
  pull request, blob, tree, then bare repository. Each is written as explicit cutting of the text
  at '/'. The regular expressions are unanchored at the start, which is modelled by scanning
  every position of the URL for `github.com/`.
- `github_url_properties.dfy` proves what each pattern accepts and rejects. It also proves what
  `ParseGitHubURL` returns for every URL of the form `<prefix>github.com/<owner>/<repo>/...`
  whose prefix contains no 'g' (such as `https://`) and whose `github.com/` occurs only there.
  A prefix like `git+https://` is not covered by these lemmas.
- `repo_config.dfy` models `Config.GetRepoPath` (three rule tiers, then the default) and
  `expandPath`. The home directory is a parameter.
- `ide.dfy` models `OpenInIDE`:
  - the table of editors;
  - the argument loops, as a method proved equal to a specification function;
  - the macOS Terminal script for Neovim.

  Starting the process is an oracle.
- `ide_properties.dfy` proves the exact command line of every editor family, with and without a
  line.
- `service.dfy` models `handleOpen`, `handleRepository` and `handlePullRequest` as methods of a
  `Service` class. It has three fields:
  - `disk`: the repository directories that exist, each with its checked-out ref;
  - `gitLog`: the git commands run, in order;
  - `launched`: the editor processes started.

  Whether a git command succeeds is an oracle `git`.
- `service_properties.dfy` proves:
  - which git commands run and in which directory;
  - the selection rules for path, line and editor;
  - how repositories are named in the cache directory.
- `page_type.dfy` models the extension's `detectPageType`. Each page kind is proved to be
  exactly the set of paths its regular expression matches.

Two behaviours of the code are worth knowing:

- When several path-mapping rules of one tier match, `GetRepoPath` takes the first one in list
  order (`RepoConfig.FirstRule`).
- The `/open` handlers do not call `GetRepoPath`: they always use
  `<HOME>/.github-browser/repos/<owner>-<repo>` (packages/service/main.go:191 and 227), whatever
  the configured cache directory and path-mapping rules say. `Handlers.Service.RepoPath` models
  that.

## Model

| member | source | states |
|---|---|---|
| Text.Atoi | packages/service/github.go:85-106 | The number read from the digits never exceeds the largest 64-bit `int`. It is their value when that fits, and that largest `int` otherwise. |
| Text.AtoiShort | packages/service/github.go:85-106 | Up to 18 digits are always read as their exact value. |
| GitHubUrl.ParseGitHubURL | packages/service/github.go:71-146 | Every successful parse is well formed: owner and repo are non-empty and free of '/'; a pull request has no branch, path or line; a repository URL has no pull-request number; a path or line comes only with a branch. A failure carries the URL with one trailing '/' trimmed. |
| GitHubUrl.FirstMatching | packages/service/github.go:138-145 | The pattern loop yields a well-formed result whose `github.com/<owner>/<repo>` occurs in the URL, or the "unsupported format" error carrying the URL. |
| GitHubUrl.FindMatch | packages/service/github.go:139 | A match of one pattern is well formed, is a pull request exactly for the pull pattern, and its `github.com/<owner>/<repo>` occurs in the searched text. |
| GitHubUrl.MatchPull | packages/service/github.go:83-92 | A pull-request match is well formed, of kind pull request, and its owner/repo begin the text after the host. |
| GitHubUrl.FileAndLine | packages/service/github.go:96 | The lazy file path is non-empty, has no newline and is a prefix of the text after the branch. |
| GitHubUrl.LineFragment | packages/service/github.go:96-107 | Splitting `#L<digits>` off the end leaves a non-empty prefix of the path as the file. |
| GitHubUrl.MatchBlob | packages/service/github.go:96-108 | A blob match is a well-formed repository result whose owner/repo begin the text. |
| GitHubUrl.MatchTree | packages/service/github.go:113-122 | A tree match is a well-formed repository result whose owner/repo begin the text. |
| GitHubUrl.MatchRepo | packages/service/github.go:126-133 | A bare-repository match is well formed and the text is exactly `<owner>/<repo>`. |
| GitHubUrl.Apply | packages/service/github.go:138-142 | The handler of a pattern gives a well-formed result, a pull request exactly for the pull pattern. |
| GitHubUrlProperties.PullShape | packages/service/github.go:83-92 | `<owner>/<repo>/pull/<digits><tail>` gives a pull request whose number is `Atoi` of the maximal digit run (its value, or the largest 64-bit `int` when it is out of range); the tail is ignored. |
| GitHubUrlProperties.PullWithoutNumber | packages/service/github.go:83 | `pull/` not followed by a digit does not match the pull pattern. |
| GitHubUrlProperties.PullWithoutNumberShape | packages/service/github.go:83-126 | `<owner>/<repo>/pull/<after>` with no digit right after `pull/` matches none of the four patterns. |
| GitHubUrlProperties.FileAndLineWithFragment | packages/service/github.go:96-107 | `<file>#L<digits>` gives the file and `Atoi` of the digits as the line. |
| GitHubUrlProperties.FileAndLineWithoutFragment | packages/service/github.go:96-105 | A path without '#' is the file path, with line 0. |
| GitHubUrlProperties.FragmentParts | packages/service/github.go:96-107 | In `<file>#L<digits>` the trailing digit run is exactly the digits, preceded by `#L` and the file. |
| GitHubUrlProperties.FileAndLineOf | packages/service/github.go:96-107 | A path whose trailing digits follow `#L` gives the text before `#L` as the file and the digits' value as the line. |
| GitHubUrlProperties.BlobShape | packages/service/github.go:96-108 | `<owner>/<repo>/blob/<branch>/<path>` does not match the pull pattern; the blob pattern gives the branch and the file and line of the path. |
| GitHubUrlProperties.TreeShape | packages/service/github.go:113-122 | `<owner>/<repo>/tree/<branch>[/<path>]` matches neither the pull nor the blob pattern; the tree pattern gives the branch and the path, which may be empty. |
| GitHubUrlProperties.TreeBranchOnly | packages/service/github.go:113-122 | `<owner>/<repo>/tree/<branch>` gives the branch with an empty path, and only the tree pattern matches. |
| GitHubUrlProperties.TreeWithPath | packages/service/github.go:113-122 | `<owner>/<repo>/tree/<branch>/<path>` gives the branch and the path, and only the tree pattern matches. |
| GitHubUrlProperties.TreeOf | packages/service/github.go:113-122 | Text cut into owner, repository, `tree`, a branch segment and a newline-free path matches neither the pull nor the blob pattern, and the tree pattern gives that branch and path. |
| GitHubUrlProperties.RepoShape | packages/service/github.go:126-133 | `<owner>/<repo>` matches only the bare-repository pattern, with an empty branch and path. |
| GitHubUrlProperties.RepoNeedsEnd | packages/service/github.go:126 | The bare-repository pattern is anchored at the end: a third segment defeats it. |
| GitHubUrlProperties.OtherKindShape | packages/service/github.go:83-126 | A section other than pull, blob or tree (issues, say) matches no pattern. |
| GitHubUrlProperties.ThreeSegments | packages/service/github.go:83-126 | `<owner>/<repo>/<x>` with no further '/' matches no pattern. |
| GitHubUrlProperties.BlobWithoutPath | packages/service/github.go:96-126 | `blob/<branch>` without a file path matches no pattern. |
| GitHubUrlProperties.FindMatchSkip | packages/service/github.go:139 | Text free of 'g' before the URL cannot contain the host and does not change a pattern's match. |
| GitHubUrlProperties.FindMatchAbsent | packages/service/github.go:139 | Without `github.com/` no pattern matches. |
| GitHubUrlProperties.FindMatchAfterHost | packages/service/github.go:139 | When the text before `github.com/` has no 'g' and the text after it has no further `github.com/`, a pattern matches the URL exactly as it matches the text after the host. |
| GitHubUrlProperties.PatternsAfterHost | packages/service/github.go:139 | When the text before `github.com/` has no 'g' and the text after it has no further `github.com/`, each of the four patterns matches the whole URL exactly as it matches the text after the host. |
| GitHubUrlProperties.ParseTrimsOneSlash | packages/service/github.go:73 | One trailing '/' is removed before matching, and a URL without one is matched as is. |
| GitHubUrlProperties.ParseInOrder | packages/service/github.go:71-146 | For `<prefix>github.com/<rest>` with no 'g' in the prefix and no further `github.com/` in `rest`, the result is the first of pull, blob, tree and repository that matches `rest`, else the error with the URL. One trailing '/' changes nothing. |
| GitHubUrlProperties.FirstMatchingUnrolled | packages/service/github.go:138-145 | The pattern loop is the if-chain pull, blob, tree, repository, then the error. |
| GitHubUrlProperties.ParsedNamesOccurInUrl | packages/service/github.go:71-146 | A parsed owner and repository occur in the URL as `github.com/<owner>/<repo>`. |
| GitHubUrlProperties.ParsePullRequestUrl | packages/service/github.go:83-92 | A pull-request URL parses to its owner, repo and number, with or without a trailing '/' and whatever follows the number. |
| GitHubUrlProperties.ParseBlobUrlWithLine | packages/service/github.go:96-108 | A file URL with `#L<n>` parses to owner, repo, branch, file and line n. |
| GitHubUrlProperties.ParseBlobUrl | packages/service/github.go:96-108 | A file URL without a fragment parses to owner, repo, branch and file, with line 0. |
| GitHubUrlProperties.ParseTreeUrl | packages/service/github.go:113-122 | A directory URL parses to owner, repo, branch and the directory path. |
| GitHubUrlProperties.ParseRepoUrl | packages/service/github.go:126-133 | A bare repository URL parses to owner and repo alone. |
| GitHubUrlProperties.ParseRejectsOtherKind | packages/service/github.go:145 | A URL with another section is rejected, with the URL in the error. |
| GitHubUrlProperties.ParseRejectsPullWithoutNumber | packages/service/github.go:83-145 | A URL `.../pull/<after>` with no digit right after `pull/` (for example `pull/abc`) is rejected, with the URL in the error. |
| GitHubUrlProperties.ParseRejectsOtherHosts | packages/service/github.go:145 | A URL without `github.com/` is rejected. |
| RepoConfig.FirstRule | packages/service/config.go:82-86 | The first index of a rule with the pattern, or the list's length exactly when there is none. |
| RepoConfig.ExpandPath | packages/service/config.go:111-116 | A path without a leading '~' is unchanged. With one, the result starts with the home directory and ends with the rest of the path. It never begins with '~' when home does not. |
| RepoConfig.CacheRoot | packages/service/config.go:103-106 | The configured cache directory, else one below home ending in `.github-browser/repos`. |
| RepoConfig.GetRepoPath | packages/service/config.go:78-108 | Without an exact rule the directory is named after the repository. Without exact or owner rules it is named `<owner>-<repo>`. |
| RepoConfig.FirstRuleAt | packages/service/config.go:82-86 | The rule found is the first in list order with the pattern. |
| RepoConfig.FirstRuleAppend | packages/service/config.go:82-86 | Rules appended after a matching rule do not change which rule is found. |
| RepoConfig.GetRepoPathExact | packages/service/config.go:79-86 | The first exact `owner/repo` rule decides, whatever precedes it: its expanded path. |
| RepoConfig.GetRepoPathOwner | packages/service/config.go:88-93 | Without an exact rule, the first owner rule gives `<expanded>/<repo>`. |
| RepoConfig.GetRepoPathWildcard | packages/service/config.go:95-100 | Without exact or owner rules, the first `*` rule gives `<expanded>/<owner>-<repo>`. |
| RepoConfig.GetRepoPathDefault | packages/service/config.go:102-107 | Without any rule, `<cacheDir>/<owner>-<repo>`, with `<home>/.github-browser/repos` when no cache directory is set. |
| RepoConfig.JoinDashed | packages/service/config.go:98-107 | A directory joined with `<owner>-<repo>` ends with `<owner>-<repo>`, and so with the repository name. |
| RepoConfig.GetRepoPathNoRules | packages/service/config.go:102-107 | With no rules and a cache directory, the path is `<cacheDir>/<owner>-<repo>`. |
| RepoConfig.GetRepoPathAppendRules | packages/service/config.go:82-86 | Appending rules never overrides a repository that already has an exact rule. |
| RepoConfig.ExpandPathIdempotent | packages/service/config.go:111-116 | Expanding twice is expanding once. |
| RepoConfig.ExpandPathHome | packages/service/config.go:112-113 | `~` is the home directory and `~name` is `<home>/name`. |
| Ide.WithLine | packages/service/ide.go:54-58 | One argument per template, each with `$PATH` then `$LINE` replaced. |
| Ide.WithoutLine | packages/service/ide.go:62-74 | At most one argument per template. |
| Ide.Substitute | packages/service/ide.go:55-56 | A template mentioning neither `$PATH` nor `$LINE` is passed through unchanged. |
| Ide.StripLine | packages/service/ide.go:63-72 | Only a template mentioning `$LINE` can be dropped; one without `$LINE` has just `$PATH` replaced, and one mentioning neither placeholder is kept as it is. |
| Ide.NvimScript | packages/service/ide.go:41-44 | The script starts with `nvim ` and ends with the path; with a line it starts with `nvim +<line> `, without one it holds nothing else. |
| Ide.LaunchArgs | packages/service/ide.go:49-75 | With a line and a goto flag: the flag and one argument. With a line and no flag: one argument per template. Without a line: no more arguments than templates. |
| Ide.BuildArgs | packages/service/ide.go:49-75 | The loops build exactly `LaunchArgs`. |
| Ide.LaunchCommand | packages/service/ide.go:33-77 | Failure exactly for a name outside the table, as "unsupported IDE". Neovim on macOS runs `osascript` with two arguments. Every other editor runs its table executable. |
| Ide.OpenInIde | packages/service/ide.go:33-79 | An unknown editor is an error. Otherwise the command is `LaunchCommand`'s, and the result is that command or the start failure. |
| IdeProperties.ReplaceMissing | packages/service/ide.go:55-72 | Replacing a placeholder in text that lacks one of its characters changes nothing. |
| IdeProperties.ReplaceLeading | packages/service/ide.go:55-56 | A leading placeholder is replaced once. |
| IdeProperties.ReplaceTrailing | packages/service/ide.go:55-56 | A trailing placeholder is replaced once. |
| IdeProperties.ReplaceWhole | packages/service/ide.go:55-56 | A whole placeholder becomes the replacement. |
| IdeProperties.DigitsHaveNoDollar | packages/service/ide.go:56 | A formatted line number never contains '$'. |
| IdeProperties.SubstitutePath | packages/service/ide.go:55-56 | `$PATH` becomes the path. |
| IdeProperties.SubstitutePathColonLine | packages/service/ide.go:55-56 | `$PATH:$LINE` becomes `<path>:<line>`. |
| IdeProperties.SubstituteAround | packages/service/ide.go:55-56 | `$PATH:$LINE` built from its parts becomes `<path>:<line>` for a path without '$'; `$PATH` is replaced first and `$LINE` is left for the second replacement. |
| IdeProperties.SubstituteLine | packages/service/ide.go:55-56 | `$LINE` becomes the line. |
| IdeProperties.SubstitutePlusLine | packages/service/ide.go:55-56 | `+$LINE` becomes `+<line>`. |
| IdeProperties.SubstituteLineFlag | packages/service/ide.go:55-56 | `--line` is kept. |
| IdeProperties.StripPath | packages/service/ide.go:62-73 | Without a line, `$PATH` becomes the path. |
| IdeProperties.StripPathColonLine | packages/service/ide.go:63-73 | Without a line, `$PATH:$LINE` becomes the path. |
| IdeProperties.StripKept | packages/service/ide.go:63-73 | Without a line, `$PATH` followed by `:$LINE` mentions `$LINE` but is not dropped: `:$LINE` is removed and the path remains. |
| IdeProperties.StripLineAlone | packages/service/ide.go:63-67 | Without a line, `$LINE` is dropped. |
| IdeProperties.StripLineFlag | packages/service/ide.go:62-73 | Without a line, `--line` (which does not mention `$LINE`) is kept. |
| IdeProperties.StripPlusLine | packages/service/ide.go:63-73 | Without a line, `+$LINE` becomes the empty argument. |
| IdeProperties.EditorFamilies | packages/service/ide.go:16-30 | The table's names are exactly the goto editors, the path:line editors, the JetBrains editors and Neovim. |
| IdeProperties.GotoArgs | packages/service/ide.go:50-74 | A goto editor gets `--goto <path>:<line>`, or the path alone. |
| IdeProperties.PathLineArgs | packages/service/ide.go:53-74 | A `$PATH:$LINE` editor gets `<path>:<line>`, or the path alone. |
| IdeProperties.JetBrainsArgs | packages/service/ide.go:53-74 | A JetBrains editor gets `--line <line> <path>`, or `--line <path>` without a line. |
| IdeProperties.JetBrainsWithLine | packages/service/ide.go:53-58 | With a line, the JetBrains templates become `--line`, the line and the path. |
| IdeProperties.JetBrainsWithoutLine | packages/service/ide.go:62-74 | Without a line, the JetBrains templates become `--line` and the path: only the `$LINE` template is dropped. |
| IdeProperties.WithoutMiddleOfThree | packages/service/ide.go:62-74 | Of three templates, when the first is kept unchanged, the second names the line and the third becomes the path, the stripped arguments are the first template and the path. |
| IdeProperties.NeovimArgs | packages/service/ide.go:53-74 | Neovim gets `+<line> <path>`, or an empty argument and the path without a line. |
| IdeProperties.TableCommand | packages/service/ide.go:34-77 | A step lemma that unfolds the last branch of `LaunchCommand`: outside the Terminal script, an editor runs its executable with `LaunchArgs`. The four editor-family lemmas build on it. |
| IdeProperties.GotoEditorCommand | packages/service/ide.go:17-77 | code, vscode, code-insiders and cursor: `--goto <path>:<line>`, or `<path>`. |
| IdeProperties.PathLineEditorCommand | packages/service/ide.go:20-77 | zed, subl and sublime: `<path>:<line>`, or `<path>`. |
| IdeProperties.JetBrainsEditorCommand | packages/service/ide.go:22-77 | idea, pycharm, webstorm and goland: `--line <line> <path>`, or `--line <path>`. |
| IdeProperties.NeovimEditorCommand | packages/service/ide.go:28-77 | nvim and neovim outside macOS: `nvim +<line> <path>`, or `nvim "" <path>`. |
| IdeProperties.NeovimOnMacCommand | packages/service/ide.go:40-46 | On macOS Neovim opens through a Terminal script running `nvim +<line> <path>` or `nvim <path>`. |
| IdeProperties.AliasesAgree | packages/service/ide.go:17-29 | vscode, sublime and neovim launch exactly what code, subl and nvim launch. |
| IdeProperties.PathIsLastArgument | packages/service/ide.go:49-77 | Outside the Terminal script the last argument starts with the path, and is the path when no line is given. |
| Handlers.AfterGit | packages/service/main.go:194-220 | A git command changes the ref of its own directory at most; only a successful clone adds a directory, and every other command keeps the set of directories. |
| Handlers.CloneUrl | packages/service/main.go:201 | The clone URL is `https://github.com/...` ending in `.git`. |
| Handlers.RepositoryCalls | packages/service/main.go:194-220 | One to four commands, starting with the pull (existing directory) or the clone. More follow exactly when a branch is named and the directory is there. |
| Handlers.PullRequestCalls | packages/service/main.go:230-256 | One to three commands, starting with the fetch (existing directory) or the clone. More follow exactly when the directory is there. |
| Handlers.PrBranch | packages/service/main.go:246 | The branch is `pr-` followed by the decimal digits of the number. |
| Handlers.TargetPath | packages/service/main.go:151-159 | The target string starts with the repository path (Join's cleaning is not modelled). It is the request's path when given, else the URL's path, else the repository itself. |
| Handlers.SelectLine | packages/service/main.go:161-165 | The request's line unless it is 0, else the URL's line. |
| Handlers.SelectIde | packages/service/main.go:167-171 | The request's editor unless empty, else the configured default. |
| Handlers.Service.constructor | packages/service/main.go:47-59 | The service's cache directory is `<HOME>/.github-browser/repos`, with no git commands run and no editor started yet. |
| Handlers.Service.RepoPath | packages/service/main.go:191 | The directory is `<owner>-<repo>` below the cache directory. |
| Handlers.Service.Run | packages/service/main.go:196-217 | One git command: its result is the oracle's, it is logged, and the directories change as `AfterGit` says. |
| Handlers.RepositoryOutcome | packages/service/main.go:190-224 | `handleRepository` fails exactly when the directory is missing and its clone fails, and then changes nothing. On success the directory exists. No other directory changes. |
| Handlers.PullRequestOutcome | packages/service/main.go:226-257 | `handlePullRequest` succeeds exactly when the directory exists or is cloned, and the pull-request fetch and checkout succeed. On success the directory has `pr-<n>`. A failed clone changes nothing. No other directory changes. |
| Handlers.Service.HandleRepository | packages/service/main.go:190-224 | It fails exactly when the directory is missing and the clone fails, leaving the directories alone. On success the new directories are the old ones with exactly this directory set: to the named branch, else the tag, else its old ref (the default branch after a clone). The git commands are `RepositoryCalls`. |
| Handlers.Service.SwitchTo | packages/service/main.go:207-220 | With a branch named, a fetch and then the branch checkout run; the tag checkout runs only when that fails. The directory ends on the branch, else the tag, else its old ref. Nothing else changes. |
| Handlers.Service.HandlePullRequest | packages/service/main.go:226-257 | It succeeds exactly when the clone (if needed), the pull-request fetch and the checkout all succeed, with a distinct error for each failure. On success exactly this directory changes, to `pr-<n>`. On a failure after a successful clone the fresh clone stays on its default branch; otherwise nothing changes. The git commands are `PullRequestCalls`. |
| Handlers.Service.SwitchToPullRequest | packages/service/main.go:243-256 | The pull request is fetched into `pr-<n>` and checked out, with a distinct error for each failed step. Only a full success changes the directory, which then has `pr-<n>` checked out. |
| Handlers.Service.HandleOpen | packages/service/main.go:108-188 | The status is 200, 400 or 500 as follows. 400 when the url is missing or does not parse, with nothing run. After a successful parse the new directories are exactly those `RepositoryOutcome` or `PullRequestOutcome` gives for its kind, and the response is 500 with the handler's own error exactly when that handler fails; no editor is started then. When the handler succeeds, the selected editor is always tried: 500 with the editor error when it is unknown or does not start, else 200 with the repository path after starting `LaunchCommand` on the selected editor, target and line. |
| Handlers.Service.LaunchEditor | packages/service/main.go:151-187 | The selected editor is started on the selected target and line. The result is 200 with the repository path and the command recorded as started, or 500 with the editor's error. The directories and git commands are untouched. |
| ServiceProperties.RepositoryCallsStayInPath | packages/service/main.go:190-224 | Every git command of `handleRepository` runs in the repository's directory. |
| ServiceProperties.PullRequestCallsStayInPath | packages/service/main.go:226-257 | Every git command of `handlePullRequest` runs in the repository's directory. |
| ServiceProperties.ExistingRepositoryIsNotCloned | packages/service/main.go:194-234 | An existing directory is pulled (repository) or fetched (pull request) and never cloned. |
| ServiceProperties.MissingRepositoryIsCloned | packages/service/main.go:199-241 | A missing directory is cloned first from `https://github.com/<owner>/<repo>.git`. |
| ServiceProperties.NoBranchNoCheckout | packages/service/main.go:208 | Without a branch only the pull or the clone runs. |
| ServiceProperties.TagOnlyAfterFailedCheckout | packages/service/main.go:208-220 | The tag checkout runs exactly when a branch is named, the directory is there and the branch checkout failed. |
| ServiceProperties.PrCheckoutOnlyAfterFetch | packages/service/main.go:246-254 | The pull request's branch is checked out only after a successful fetch, and is always `pr-<n>`. |
| ServiceProperties.PrBranchInjective | packages/service/main.go:246 | Different pull requests use different local branches. |
| ServiceProperties.LineChoice | packages/service/main.go:161-165 | A positive line is opened exactly when the request gives one, or gives 0 and the URL has one. |
| ServiceProperties.RequestPathWins | packages/service/main.go:152-156 | A request's path makes the URL's path irrelevant. |
| ServiceProperties.SecondOpenDoesNotClone | packages/service/main.go:194-230 | Once its directory exists, opening any URL of the repository runs no clone. |
| ServiceProperties.JoinInjective | packages/service/main.go:191 | Joining one directory with different names gives different paths. |
| ServiceProperties.DashedNameUnique | packages/service/main.go:191 | `<owner>-<repo>` determines owner and repo when the owner has no '-'. |
| ServiceProperties.RepoPathDistinct | packages/service/main.go:191 | Repositories whose owners have no '-' get distinct directories. |
| ServiceProperties.RepoPathSharedByDashedNames | packages/service/main.go:191 | The repositories `<a>-<b>/<c>` and `<a>/<b>-<c>` share one directory, for example `a-b/c` and `a/b-c`. |
| PageType.Label | packages/browser-ext/content.js:8-22 | The five labels of the page kinds. |
| PageType.DetectPageType | packages/browser-ext/content.js:8-22 | Only a path beginning with '/' is classified as a known kind. |
| PageType.PullRequestPageSound | packages/browser-ext/content.js:11-12 | A path classified as a pull request matches `^/[^/]+/[^/]+/pull/\d+`. |
| PageType.PullRequestPageComplete | packages/browser-ext/content.js:11-12 | A path matching the pull-request pattern is classified as a pull request. |
| PageType.FilePageSound | packages/browser-ext/content.js:13-14 | A path classified as a file matches `^/[^/]+/[^/]+/blob/`. |
| PageType.FilePageComplete | packages/browser-ext/content.js:11-14 | A path matching the blob pattern is classified as a file. |
| PageType.DirectoryPageSound | packages/browser-ext/content.js:15-16 | A path classified as a directory matches `^/[^/]+/[^/]+/tree/`. |
| PageType.DirectoryPageComplete | packages/browser-ext/content.js:11-16 | A path matching the tree pattern is classified as a directory. |
| PageType.RepositoryPageSound | packages/browser-ext/content.js:17-18 | A path classified as a repository matches `^/[^/]+/[^/]+/?$`. |
| PageType.RepositoryPageComplete | packages/browser-ext/content.js:11-18 | A path matching the repository pattern is classified as a repository. |
| PageType.SectionDetect | packages/browser-ext/content.js:11-16 | A path `/<owner>/<repo>/<section>/...` is classified by its section alone. |
| PageType.RepoWithSlashDetect | packages/browser-ext/content.js:17-18 | `/<owner>/<repo>/` is a repository page. |
| PageType.RepoDetect | packages/browser-ext/content.js:17-18 | `/<owner>/<repo>` is a repository page. |
| PageType.SplitOwnerRepoOfTwo | packages/browser-ext/content.js:17 | Two segments do not split into owner, repository and a further tail. |
| PageType.PullRequestPageIff | packages/browser-ext/content.js:11-12 | Pull request exactly when the pull-request pattern matches. |
| PageType.FilePageIff | packages/browser-ext/content.js:13-14 | File exactly when the blob pattern matches. |
| PageType.DirectoryPageIff | packages/browser-ext/content.js:15-16 | Directory exactly when the tree pattern matches. |
| PageType.RepositoryPageIff | packages/browser-ext/content.js:17-18 | Repository exactly when the repository pattern matches. |
| PageType.UnknownPageIff | packages/browser-ext/content.js:8-22 | Unknown exactly when none of the four patterns matches. |

## Left out

- `filepath.Join` is modelled as joining with one '/' and skipping empty elements. The path
  cleaning it also does is not modelled, so `~/x` expands to `<home>//x` rather than
  `<home>/x`, and `..` or repeated '/' are kept.
- `strconv.Atoi` is modelled for Go's 64-bit `int` only: a value above 2^63-1 becomes
  2^63-1, the value Atoi returns along with its range error, which the source ignores. On a
  32-bit platform the bound would be 2^31-1.
- Go's regular-expression engine is not modelled. Each pattern is written out as cutting at '/'.
  The relevant semantics are kept: the unanchored start, `.` excluding a newline, the lazy file
  path, and the unanchored end of the pull pattern.
- The `default` branch of the URL-type switch in `handleOpen` is not modelled. It cannot be
  reached, because a parse result is always a repository or a pull request. The model has no such
  branch.
- git itself (packages/service/git.go) is not part of this model. Each git command is an oracle
  `git`. The fallback inside `Checkout` (`checkout -b <branch> origin/<branch>`) is part of what
  the oracle decides.
- Starting an editor process is an oracle `start`. Its stdout, stderr and later exit are not
  modelled. Logging is left out.
- JSON decoding of the request is reduced to its one required field: an empty `url` is the
  binding error. Malformed JSON and wrong field types are not modelled.
- The HTTP framing, CORS, the cache, configuration and health endpoints, the GitHub API client,
  `LoadConfig`, `SaveConfig` and `DefaultConfig` are not part of this model. The browser
  extension's user interface, its popup and options pages, and the editor plug-ins are not part
  of it either.
- Handlers.TargetPath: `filepath.Join` cleans `..` away, so a request path such as `../x`, or a
  URL path such as `main/../../x`, opens a file outside the repository. The model's target only
  starts with the repository path as a string, because Join's cleaning is not modelled.
- Handlers.Service.HandleOpen: the `/open` handlers use the service's fixed cache directory, as
  the code does, so the configuration's `cacheDir` and path-mapping rules do not influence them.
- Concurrency between requests is not modelled: each handler runs alone on the service's state.
- Strings are sequences of characters. Go's byte strings and UTF-8 are not distinguished.
- IdeProperties.PathLineEditorCommand: the command line with a line is stated only for paths
  without '$'. A path containing `$LINE` has that text rewritten too; `Ide.WithLine` states the
  general case.
- IdeProperties.JetBrainsEditorCommand: the same restriction to paths without '$' when a line is
  given.
- IdeProperties.NeovimEditorCommand: the same restriction to paths without '$' when a line is
  given.
- IdeProperties.PathIsLastArgument: the same restriction to paths without '$' when a line is
  given.
- Concrete URLs are not worked through as examples. The parse lemmas state the result for every
  URL of each shape instead.
