/**
  Opening a file or directory in an editor: the table of supported editors, the command line
  built from an editor's argument templates (`$PATH` and `$LINE` placeholders), and the special
  Terminal script for Neovim on macOS. Starting the process is an oracle: `start` says whether
  the operating system accepted the command.
 */
module Ide {
  import opened Wrappers
  import opened Text

  /** An editor: its executable, its argument templates, and the flag that takes `path:line`
      directly ("" when it has none). */
  datatype IdeConfig = IdeConfig(cmd: string, args: seq<string>, gotoFlag: string)

  /** A process to start: executable and arguments. */
  datatype Command = Command(name: string, args: seq<string>)

  datatype IdeError =
    | UnsupportedIde(name: string)  // "unsupported IDE: <name>"
    | StartFailed(command: Command) // the process could not be started

  const PathVar: string := "$PATH"
  const LineVar: string := "$LINE"

  /** The supported editors, by the name a request uses. */
  const Ides: map<string, IdeConfig> := map[
    "code" := IdeConfig("code", ["$PATH"], "--goto"),
    "vscode" := IdeConfig("code", ["$PATH"], "--goto"),
    "code-insiders" := IdeConfig("code-insiders", ["$PATH"], "--goto"),
    "zed" := IdeConfig("zed", ["$PATH:$LINE"], ""),
    "cursor" := IdeConfig("cursor", ["$PATH"], "--goto"),
    "idea" := IdeConfig("idea", ["--line", "$LINE", "$PATH"], ""),
    "pycharm" := IdeConfig("pycharm", ["--line", "$LINE", "$PATH"], ""),
    "webstorm" := IdeConfig("webstorm", ["--line", "$LINE", "$PATH"], ""),
    "goland" := IdeConfig("goland", ["--line", "$LINE", "$PATH"], ""),
    "subl" := IdeConfig("subl", ["$PATH:$LINE"], ""),
    "sublime" := IdeConfig("subl", ["$PATH:$LINE"], ""),
    "nvim" := IdeConfig("nvim", ["+$LINE", "$PATH"], ""),
    "neovim" := IdeConfig("nvim", ["+$LINE", "$PATH"], "")
  ]

  /** A template with a line: `$PATH` is replaced first, then `$LINE`. */
  function Substitute(template: string, path: string, lineText: string): (arg: string)
    ensures !Contains(template, PathVar) && !Contains(template, LineVar) ==> arg == template
  {
    ReplaceAllAbsent(template, PathVar, path);
    ReplaceAllAbsent(template, LineVar, lineText);
    ReplaceAll(ReplaceAll(template, PathVar, path), LineVar, lineText)
  }

  /** A template without a line: a template mentioning `$LINE` is dropped when it is `$LINE` itself
      or starts with `--line`; otherwise `:$LINE` and `+$LINE` are removed from it. Then `$PATH` is
      replaced. */
  function StripLine(template: string, path: string): (r: Option<string>)
    ensures r.None? ==> Contains(template, LineVar)
    ensures !Contains(template, LineVar) ==> r == Some(ReplaceAll(template, PathVar, path))
    ensures !Contains(template, LineVar) && !Contains(template, PathVar) ==> r == Some(template)
  {
    if Contains(template, LineVar) then
      if template == LineVar || HasPrefix(template, "--line") then None
      else Some(ReplaceAll(ReplaceAll(ReplaceAll(template, ":$LINE", ""), "+$LINE", ""), PathVar, path))
    else
      if !Contains(template, PathVar) then
        ReplaceAllAbsent(template, PathVar, path);
        Some(ReplaceAll(template, PathVar, path))
      else Some(ReplaceAll(template, PathVar, path))
  }

  /** Every template substituted, in order. */
  function WithLine(templates: seq<string>, path: string, lineText: string): (args: seq<string>)
    ensures |args| == |templates|
    ensures forall i :: 0 <= i < |templates| ==> args[i] == Substitute(templates[i], path, lineText)
  {
    if templates == [] then []
    else
      var init := WithLine(templates[..|templates| - 1], path, lineText);
      init + [Substitute(templates[|templates| - 1], path, lineText)]
  }

  /** The templates that survive without a line, stripped, in order. */
  function WithoutLine(templates: seq<string>, path: string): (args: seq<string>)
    ensures |args| <= |templates|
  {
    if templates == [] then []
    else
      var kept := WithoutLine(templates[..|templates| - 1], path);
      match StripLine(templates[|templates| - 1], path)
      case None => kept
      case Some(arg) => kept + [arg]
  }

  /** The arguments for opening `path`, at `line` when it is positive: the goto flag followed by
      `path:line` when the editor has one, else the templates substituted; without a positive line,
      the templates stripped of line placeholders. */
  function LaunchArgs(config: IdeConfig, path: string, line: int): (args: seq<string>)
    ensures line > 0 && config.gotoFlag != "" ==> |args| == 2 && args[0] == config.gotoFlag
    ensures line > 0 && config.gotoFlag == "" ==> |args| == |config.args|
    ensures line <= 0 ==> |args| <= |config.args|
  {
    if line > 0 then
      if config.gotoFlag != "" then [config.gotoFlag, path + ":" + DecimalString(line)]
      else WithLine(config.args, path, DecimalString(line))
    else WithoutLine(config.args, path)
  }

  /** `OpenInIDE`'s argument loops (`args` grows by `append`). */
  method BuildArgs(config: IdeConfig, path: string, line: int) returns (args: seq<string>)
    ensures args == LaunchArgs(config, path, line)
  {
    args := [];
    if line > 0 {
      if config.gotoFlag != "" {
        args := args + [config.gotoFlag, path + ":" + DecimalString(line)];
      } else {
        var lineText := DecimalString(line);
        var i := 0;
        while i < |config.args|
          invariant 0 <= i <= |config.args|
          invariant args == WithLine(config.args[..i], path, lineText)
        {
          var arg := ReplaceAll(config.args[i], PathVar, path);
          arg := ReplaceAll(arg, LineVar, lineText);
          assert config.args[..i + 1][..i] == config.args[..i];
          args := args + [arg];
          i := i + 1;
        }
        assert config.args[..i] == config.args;
      }
    } else {
      var i := 0;
      while i < |config.args|
        invariant 0 <= i <= |config.args|
        invariant args == WithoutLine(config.args[..i], path)
      {
        var arg := config.args[i];
        assert config.args[..i + 1][..i] == config.args[..i];
        if Contains(arg, LineVar) {
          if arg == LineVar || HasPrefix(arg, "--line") {
            i := i + 1;
            continue;
          }
          arg := ReplaceAll(arg, ":$LINE", "");
          arg := ReplaceAll(arg, "+$LINE", "");
        }
        arg := ReplaceAll(arg, PathVar, path);
        args := args + [arg];
        i := i + 1;
      }
      assert config.args[..i] == config.args;
    }
  }

  /** Neovim is opened through a Terminal script on macOS. */
  predicate UsesTerminalScript(name: string, goos: string) {
    (name == "nvim" || name == "neovim") && goos == "darwin"
  }

  /** The Terminal script text: `nvim +<line> <path>` or `nvim <path>`. */
  function NvimScript(path: string, line: int): (script: string)
    ensures HasPrefix(script, "nvim ") && HasSuffix(script, path)
    ensures line > 0 ==> HasPrefix(script, "nvim +" + DecimalString(line) + " ")
    ensures line <= 0 ==> |script| == |"nvim "| + |path|
  {
    if line > 0 then "nvim +" + DecimalString(line) + " " + path else "nvim " + path
  }

  /** The command `OpenInIDE` starts for an editor name, a path and a line on operating system
      `goos`; an unknown editor is an error. */
  function LaunchCommand(name: string, path: string, line: int, goos: string): (r: Result<Command, IdeError>)
    ensures r.Failure? <==> name !in Ides
    ensures r.Failure? ==> r.error == UnsupportedIde(name)
    ensures r.Success? && UsesTerminalScript(name, goos) ==> r.value.name == "osascript" && |r.value.args| == 2
    ensures r.Success? && !UsesTerminalScript(name, goos) ==> r.value.name == Ides[name].cmd
  {
    if name !in Ides then Failure(UnsupportedIde(name))
    else if UsesTerminalScript(name, goos) then
      Success(Command("osascript", ["-e", "tell application \"Terminal\" to do script \"" + NvimScript(path, line) + "\""]))
    else
      Success(Command(Ides[name].cmd, LaunchArgs(Ides[name], path, line)))
  }

  /** `OpenInIDE`: look the editor up, build its command and start it; `start` says whether the
      process could be started. */
  method OpenInIde(name: string, path: string, line: int, goos: string, start: Command -> bool)
    returns (r: Result<Command, IdeError>)
    ensures name !in Ides ==> r == Failure(UnsupportedIde(name))
    ensures name in Ides ==> LaunchCommand(name, path, line, goos).Success?
    ensures name in Ides ==>
      var command := LaunchCommand(name, path, line, goos).value;
      r == if start(command) then Success(command) else Failure(StartFailed(command))
  {
    if name !in Ides {
      return Failure(UnsupportedIde(name));
    }
    var config := Ides[name];
    var command: Command;
    if UsesTerminalScript(name, goos) {
      var script := NvimScript(path, line);
      command := Command("osascript", ["-e", "tell application \"Terminal\" to do script \"" + script + "\""]);
    } else {
      var args := BuildArgs(config, path, line);
      command := Command(config.cmd, args);
    }
    if start(command) {
      r := Success(command);
    } else {
      r := Failure(StartFailed(command));
    }
  }
}
