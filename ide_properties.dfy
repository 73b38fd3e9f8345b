/**
  The command lines the editor table produces, editor by editor, with and without a line.
  With a line the results assume a path without '$': the `$LINE` replacement runs after `$PATH`
  has been replaced and would also rewrite a `$LINE` inside the path.
 */
module IdeProperties {
  import opened Wrappers
  import opened Text
  import opened Ide

  // ---------------------------------------------------------------------------------------
  // Placeholder replacement on text free of '$'

  /** Text missing a character of the placeholder is left alone. */
  lemma ReplaceMissing(s: string, pat: string, rep: string, c: char)
    requires c in pat && c !in s
    ensures ReplaceAll(s, pat, rep) == s
  {
    NotContainsMissingChar(s, pat, c);
    ReplaceAllAbsent(s, pat, rep);
  }

  /** A placeholder at the front of text free of its first character. */
  lemma ReplaceLeading(pat: string, rest: string, rep: string)
    requires pat != [] && pat[0] !in rest
    ensures ReplaceAll(pat + rest, pat, rep) == rep + rest
  {
    ReplaceAllFront(pat, rest, rep);
    ReplaceMissing(rest, pat, rep, pat[0]);
  }

  /** A placeholder at the end of text free of its first character. */
  lemma ReplaceTrailing(front: string, pat: string, rep: string)
    requires pat != [] && pat[0] !in front
    ensures ReplaceAll(front + pat, pat, rep) == front + rep
  {
    ReplaceAllSkip(front, pat, pat, rep);
    ReplaceAllFront(pat, [], rep);
    assert pat + [] == pat;
    assert rep + [] == rep;
  }

  /** A placeholder alone is replaced by the replacement. */
  lemma ReplaceWhole(pat: string, rep: string)
    requires pat != []
    ensures ReplaceAll(pat, pat, rep) == rep
  {
    ReplaceAllFront(pat, [], rep);
    assert pat + [] == pat;
    assert rep + [] == rep;
  }

  lemma DigitsHaveNoDollar(n: nat)
    ensures '$' !in DecimalString(n)
  {
  }

  // ---------------------------------------------------------------------------------------
  // Each template with a line

  lemma SubstitutePath(path: string, lineText: string)
    requires '$' !in path
    ensures Substitute("$PATH", path, lineText) == path
  {
    ReplaceWhole(PathVar, path);
    ReplaceMissing(path, LineVar, lineText, '$');
  }

  lemma SubstitutePathColonLine(path: string, lineText: string)
    requires '$' !in path
    ensures Substitute("$PATH:$LINE", path, lineText) == path + ":" + lineText
  {
    assert "$PATH:$LINE" == PathVar + (":" + LineVar);
    SubstituteAround(PathVar, ":", LineVar, path, lineText);
  }

  /** Both placeholders around a separator are replaced, the path first. */
  lemma SubstituteAround(pathVar: string, sep: string, lineVar: string, path: string, lineText: string)
    requires pathVar == PathVar && sep == ":" && lineVar == LineVar && '$' !in path
    ensures Substitute(pathVar + (sep + lineVar), path, lineText) == path + sep + lineText
  {
    NotContainsMissingChar(lineVar, pathVar, 'P');
    ReplaceFrontOnly(pathVar, sep, lineVar, path);
    assert '$' !in path + sep;
    ReplaceTrailing(path + sep, lineVar, lineText);
  }

  /** A placeholder is replaced in front of a separator and a text that do not contain it. */
  lemma ReplaceFrontOnly(pat: string, sep: string, after: string, rep: string)
    requires pat != [] && pat[0] !in sep && !Contains(after, pat)
    ensures ReplaceAll(pat + (sep + after), pat, rep) == (rep + sep) + after
  {
    ReplaceAllFront(pat, sep + after, rep);
    ReplaceAllSkip(sep, after, pat, rep);
    ReplaceAllAbsent(after, pat, rep);
    assert rep + (sep + after) == (rep + sep) + after;
  }

  lemma SubstituteLine(path: string, lineText: string)
    ensures Substitute("$LINE", path, lineText) == lineText
  {
    ReplaceMissing(LineVar, PathVar, path, 'P');
    ReplaceWhole(LineVar, lineText);
  }

  lemma SubstitutePlusLine(path: string, lineText: string)
    ensures Substitute("+$LINE", path, lineText) == "+" + lineText
  {
    assert "+$LINE" == "+" + LineVar;
    ReplaceMissing("+" + LineVar, PathVar, path, 'P');
    ReplaceTrailing("+", LineVar, lineText);
  }

  lemma SubstituteLineFlag(path: string, lineText: string)
    ensures Substitute("--line", path, lineText) == "--line"
  {
    ReplaceMissing("--line", PathVar, path, '$');
    ReplaceMissing("--line", LineVar, lineText, '$');
  }

  // ---------------------------------------------------------------------------------------
  // Each template without a line

  lemma StripPath(path: string)
    ensures StripLine("$PATH", path) == Some(path)
  {
    NotContainsMissingChar(PathVar, LineVar, 'L');
    ReplaceWhole(PathVar, path);
  }

  lemma StripPathColonLine(path: string)
    ensures StripLine("$PATH:$LINE", path) == Some(path)
  {
    var t := "$PATH:$LINE";
    assert t == PathVar + ":$LINE";
    StripKept(PathVar, ":$LINE", path);
  }

  /** A template that is a placeholder followed by `:$LINE` keeps the placeholder's replacement. */
  lemma StripKept(front: string, colonLine: string, path: string)
    requires front == PathVar && colonLine == ":$LINE"
    ensures StripLine(front + colonLine, path) == Some(path)
  {
    var t := front + colonLine;
    assert t[6..] == LineVar;
    ContainsAt(t, LineVar, 6);
    assert !(t == LineVar || HasPrefix(t, "--line")) by {
      assert |t| != |LineVar| && t[0] != '-';
    }
    ReplaceTrailing(front, colonLine, []);
    assert front + [] == front;
    ReplaceMissing(front, "+$LINE", [], '+');
    ReplaceWhole(front, path);
  }

  lemma StripLineAlone(path: string)
    ensures StripLine("$LINE", path) == None
  {
    ContainsAt(LineVar, LineVar, 0);
  }

  lemma StripLineFlag(path: string)
    ensures StripLine("--line", path) == Some("--line")
  {
    NotContainsMissingChar("--line", LineVar, '$');
    ReplaceMissing("--line", PathVar, path, '$');
  }

  lemma StripPlusLine(path: string)
    ensures StripLine("+$LINE", path) == Some("")
  {
    var t := "+$LINE";
    assert t[1..] == LineVar;
    ContainsAt(t, LineVar, 1);
    assert t[0] != '-';
    ReplaceMissing(t, ":$LINE", [], ':');
    ReplaceWhole(t, []);
    assert ReplaceAll([], PathVar, path) == [];
  }

  // ---------------------------------------------------------------------------------------
  // Editor by editor

  predicate GotoEditor(name: string) {
    name == "code" || name == "vscode" || name == "code-insiders" || name == "cursor"
  }

  predicate PathLineEditor(name: string) {
    name == "zed" || name == "subl" || name == "sublime"
  }

  predicate JetBrainsEditor(name: string) {
    name == "idea" || name == "pycharm" || name == "webstorm" || name == "goland"
  }

  predicate NeovimEditor(name: string) {
    name == "nvim" || name == "neovim"
  }

  /** The table has exactly these thirteen names, in four families. */
  lemma EditorFamilies(name: string)
    ensures name in Ides <==> GotoEditor(name) || PathLineEditor(name) || JetBrainsEditor(name) || NeovimEditor(name)
  {
  }

  // The four template shapes

  lemma GotoArgs(config: IdeConfig, path: string, line: int)
    requires config.args == ["$PATH"] && config.gotoFlag == "--goto"
    ensures line > 0 ==> LaunchArgs(config, path, line) == ["--goto", path + ":" + DecimalString(line)]
    ensures line <= 0 ==> LaunchArgs(config, path, line) == [path]
  {
    if line <= 0 {
      StripPath(path);
      assert config.args[..0] == [];
    }
  }

  lemma PathLineArgs(config: IdeConfig, path: string, line: int)
    requires config.args == ["$PATH:$LINE"] && config.gotoFlag == ""
    ensures line > 0 && '$' !in path ==> LaunchArgs(config, path, line) == [path + ":" + DecimalString(line)]
    ensures line <= 0 ==> LaunchArgs(config, path, line) == [path]
  {
    assert config.args[..0] == [];
    if line > 0 && '$' !in path {
      SubstitutePathColonLine(path, DecimalString(line));
    } else if line <= 0 {
      StripPathColonLine(path);
    }
  }

  lemma JetBrainsArgs(config: IdeConfig, path: string, line: int)
    requires config.args == ["--line", "$LINE", "$PATH"] && config.gotoFlag == ""
    ensures line > 0 && '$' !in path ==> LaunchArgs(config, path, line) == ["--line", DecimalString(line), path]
    ensures line <= 0 ==> LaunchArgs(config, path, line) == ["--line", path]
  {
    if line > 0 && '$' !in path {
      JetBrainsWithLine("--line", LineVar, PathVar, path, DecimalString(line));
    } else if line <= 0 {
      JetBrainsWithoutLine("--line", LineVar, PathVar, path);
    }
  }

  lemma JetBrainsWithLine(flag: string, lineVar: string, pathVar: string, path: string, l: string)
    requires flag == "--line" && lineVar == LineVar && pathVar == PathVar && '$' !in path
    ensures WithLine([flag, lineVar, pathVar], path, l) == [flag, l, path]
  {
    WithLineOfThree(flag, lineVar, pathVar, path, l);
    SubstituteLineFlag(path, l);
    SubstituteLine(path, l);
    SubstitutePath(path, l);
  }

  lemma WithLineOfThree(a: string, b: string, c: string, path: string, l: string)
    ensures WithLine([a, b, c], path, l) == [Substitute(a, path, l), Substitute(b, path, l), Substitute(c, path, l)]
  {
    var r := WithLine([a, b, c], path, l);
    assert |r| == 3;
  }

  lemma JetBrainsWithoutLine(flag: string, lineVar: string, pathVar: string, path: string)
    requires flag == "--line" && lineVar == LineVar && pathVar == PathVar
    ensures WithoutLine([flag, lineVar, pathVar], path) == [flag, path]
  {
    StripLineFlag(path);
    StripLineAlone(path);
    StripPath(path);
    WithoutMiddleOfThree(flag, lineVar, pathVar, path);
  }

  /** Stripping three templates whose middle one names the line keeps the other two. */
  lemma WithoutMiddleOfThree(a: string, b: string, c: string, path: string)
    requires StripLine(a, path) == Some(a) && StripLine(b, path) == None && StripLine(c, path) == Some(path)
    ensures WithoutLine([a, b, c], path) == [a, path]
  {
    assert WithoutLine([a], path) == [a] by { assert [a][..0] == []; }
    assert WithoutLine([a, b], path) == [a] by { assert [a, b][..1] == [a]; }
    assert [a, b, c][..2] == [a, b];
  }

  lemma NeovimArgs(config: IdeConfig, path: string, line: int)
    requires config.args == ["+$LINE", "$PATH"] && config.gotoFlag == ""
    ensures line > 0 && '$' !in path ==> LaunchArgs(config, path, line) == ["+" + DecimalString(line), path]
    ensures line <= 0 ==> LaunchArgs(config, path, line) == ["", path]
  {
    var ts := config.args;
    if line > 0 && '$' !in path {
      var l := DecimalString(line);
      SubstitutePlusLine(path, l);
      SubstitutePath(path, l);
      var r := WithLine(ts, path, l);
      assert r[0] == "+" + l && r[1] == path;
    } else if line <= 0 {
      StripPlusLine(path);
      StripPath(path);
      assert ts[..1][..0] == [];
      assert WithoutLine(ts[..1], path) == [""];
      assert ts[..1] == ts[..|ts| - 1];
    }
  }

  /** Outside the macOS Terminal script, a known editor runs its own executable with the arguments
      its templates give: one unfolding step of `LaunchCommand`, shared by the family lemmas below. */
  lemma TableCommand(name: string, path: string, line: int, goos: string)
    requires name in Ides && !UsesTerminalScript(name, goos)
    ensures LaunchCommand(name, path, line, goos) == Success(Command(Ides[name].cmd, LaunchArgs(Ides[name], path, line)))
  {
  }

  /** VS Code, VS Code Insiders and Cursor: `--goto path:line`, or the path alone without a line. */
  lemma GotoEditorCommand(name: string, path: string, line: int, goos: string)
    requires GotoEditor(name)
    ensures line > 0 ==>
      LaunchCommand(name, path, line, goos) == Success(Command(Ides[name].cmd, ["--goto", path + ":" + DecimalString(line)]))
    ensures line <= 0 ==> LaunchCommand(name, path, line, goos) == Success(Command(Ides[name].cmd, [path]))
  {
    assert Ides[name].args == ["$PATH"] && Ides[name].gotoFlag == "--goto";
    TableCommand(name, path, line, goos);
    GotoArgs(Ides[name], path, line);
  }

  /** Zed and Sublime Text: `path:line`, or the path alone without a line. */
  lemma PathLineEditorCommand(name: string, path: string, line: int, goos: string)
    requires PathLineEditor(name)
    ensures line > 0 && '$' !in path ==>
      LaunchCommand(name, path, line, goos) == Success(Command(Ides[name].cmd, [path + ":" + DecimalString(line)]))
    ensures line <= 0 ==> LaunchCommand(name, path, line, goos) == Success(Command(Ides[name].cmd, [path]))
  {
    assert Ides[name].args == ["$PATH:$LINE"] && Ides[name].gotoFlag == "";
    TableCommand(name, path, line, goos);
    PathLineArgs(Ides[name], path, line);
  }

  /** The JetBrains editors: `--line <line> <path>`; without a line the `--line` flag itself stays
      and only the line number is dropped: `--line <path>`. */
  lemma JetBrainsEditorCommand(name: string, path: string, line: int, goos: string)
    requires JetBrainsEditor(name)
    ensures line > 0 && '$' !in path ==>
      LaunchCommand(name, path, line, goos) == Success(Command(Ides[name].cmd, ["--line", DecimalString(line), path]))
    ensures line <= 0 ==> LaunchCommand(name, path, line, goos) == Success(Command(Ides[name].cmd, ["--line", path]))
  {
    assert Ides[name].args == ["--line", "$LINE", "$PATH"] && Ides[name].gotoFlag == "";
    TableCommand(name, path, line, goos);
    JetBrainsArgs(Ides[name], path, line);
  }

  /** Neovim outside macOS: `+<line> <path>`; without a line the first argument becomes the empty
      string: `"" <path>`. */
  lemma NeovimEditorCommand(name: string, path: string, line: int, goos: string)
    requires NeovimEditor(name) && goos != "darwin"
    ensures line > 0 && '$' !in path ==>
      LaunchCommand(name, path, line, goos) == Success(Command("nvim", ["+" + DecimalString(line), path]))
    ensures line <= 0 ==> LaunchCommand(name, path, line, goos) == Success(Command("nvim", ["", path]))
  {
    assert Ides[name] == IdeConfig("nvim", ["+$LINE", "$PATH"], "");
    TableCommand(name, path, line, goos);
    NeovimArgs(Ides[name], path, line);
  }

  /** Neovim on macOS: a Terminal window running `nvim +<line> <path>`, or `nvim <path>`. */
  lemma NeovimOnMacCommand(name: string, path: string, line: int)
    requires NeovimEditor(name)
    ensures LaunchCommand(name, path, line, "darwin")
         == Success(Command("osascript", ["-e", "tell application \"Terminal\" to do script \"" + NvimScript(path, line) + "\""]))
    ensures line > 0 ==> NvimScript(path, line) == "nvim +" + DecimalString(line) + " " + path
    ensures line <= 0 ==> NvimScript(path, line) == "nvim " + path
  {
  }

  /** `vscode`, `sublime` and `neovim` are other names for `code`, `subl` and `nvim`. */
  lemma AliasesAgree(path: string, line: int, goos: string)
    ensures LaunchCommand("vscode", path, line, goos) == LaunchCommand("code", path, line, goos)
    ensures LaunchCommand("sublime", path, line, goos) == LaunchCommand("subl", path, line, goos)
    ensures LaunchCommand("neovim", path, line, goos) == LaunchCommand("nvim", path, line, goos)
  {
    assert Ides["vscode"] == Ides["code"];
    assert Ides["sublime"] == Ides["subl"];
    assert Ides["neovim"] == Ides["nvim"];
  }

  /** Every editor outside the macOS Terminal script gets the path as its last argument, followed
      by `:<line>` for the editors that take `path:line`; without a line, exactly the path. */
  lemma PathIsLastArgument(name: string, path: string, line: int, goos: string)
    requires name in Ides && !UsesTerminalScript(name, goos)
    requires line > 0 ==> '$' !in path
    ensures var args := LaunchCommand(name, path, line, goos).value.args;
      && args != [] && HasPrefix(args[|args| - 1], path)
      && (line <= 0 ==> args[|args| - 1] == path)
  {
    EditorFamilies(name);
    if GotoEditor(name) {
      GotoEditorCommand(name, path, line, goos);
    } else if PathLineEditor(name) {
      PathLineEditorCommand(name, path, line, goos);
    } else if JetBrainsEditor(name) {
      JetBrainsEditorCommand(name, path, line, goos);
    } else {
      NeovimEditorCommand(name, path, line, goos);
    }
  }
}
