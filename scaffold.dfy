/** `src/scaffold.js`: creates the project with the framework's own generator, run as an
    external command, after refusing an existing target directory. */
module Scaffold {
  import opened Wrappers
  import opened Text
  import opened Paths
  import opened FileTree
  import opened Config

  /** The create-next-app flags: language, ESLint, no Tailwind, `src/`, the app router,
      the `@` import alias and the React compiler. */
  function NextFlags(isTs: bool): seq<string> {
    [if isTs then "--ts" else "--js", "--eslint", "--tailwind", "false", "--src-dir", "true",
     "--app", "true", "--import-alias", "@/*", "--react-compiler", "true"]
  }

  /** The create-next-app call: `bun create next-app` under bun, otherwise
      `create-next-app@latest` through `npx` (npm) or the manager itself. */
  function NextCommand(answers: Answers, cwd: string): (c: Command)
    ensures c.program == (if answers.pkgManager == "bun" then "bun"
                          else if answers.pkgManager == "npm" then "npx" else answers.pkgManager)
    ensures var lead := if answers.pkgManager == "bun" then ["create", "next-app"] else ["create-next-app@latest"];
      |c.args| == |lead| + 13 && c.args[..|lead|] == lead && c.args[|lead|] == answers.name &&
      c.args[|lead| + 1] == (if answers.IsTs() then "--ts" else "--js") &&
      c.args[|lead| + 2..] == ["--eslint", "--tailwind", "false", "--src-dir", "true", "--app", "true",
                               "--import-alias", "@/*", "--react-compiler", "true"]
    ensures c.cwd == cwd
  {
    var flags := NextFlags(answers.IsTs());
    if answers.pkgManager == "bun" then
      Command("bun", ["create", "next-app", answers.name] + flags, cwd)
    else
      var runner := if answers.pkgManager == "npm" then "npx" else answers.pkgManager;
      Command(runner, ["create-next-app@latest", answers.name] + flags, cwd)
  }

  /** The create-vite call: template `react-ts` or `react`, `--no-rolldown` for TypeScript
      only, `--no-interactive` last, run by `bun x` under bun and by `npx` otherwise. */
  function ViteCommand(answers: Answers, cwd: string): (c: Command)
    ensures c.program == (if answers.pkgManager == "bun" then "bun" else "npx")
    ensures |c.args| >= 5
    ensures var useBun := answers.pkgManager == "bun";
      var base := if useBun then c.args[1..] else c.args;
      (useBun ==> c.args[0] == "x") &&
      |base| == (if answers.IsTs() then 6 else 5) &&
      base[..4] == ["create-vite@latest", answers.name, "--template", if answers.IsTs() then "react-ts" else "react"] &&
      (answers.IsTs() ==> base[4] == "--no-rolldown") &&
      base[|base| - 1] == "--no-interactive"
    ensures c.cwd == cwd
  {
    var isTs := answers.IsTs();
    var template := if isTs then "react-ts" else "react";
    var useBun := answers.pkgManager == "bun";
    var baseArgs := ["create-vite@latest", answers.name, "--template", template];
    var baseArgs := if isTs then baseArgs + ["--no-rolldown"] else baseArgs;
    var baseArgs := baseArgs + ["--no-interactive"];
    Command(if useBun then "bun" else "npx", if useBun then ["x"] + baseArgs else baseArgs, cwd)
  }

  /** Why scaffolding stopped. */
  datatype ScaffoldError =
    | DirectoryExists(dir: string)
    | UnsupportedFramework(framework: string)
    | CommandFailed(command: Command)

  /** `scaffoldProject(answers)` run from `cwd`: it returns `resolve(cwd, name)` once the
      generator has run. An existing target, an unknown framework or a failing generator
      raises, the first two before any command runs. */
  method ScaffoldProject(t: Tree, answers: Answers, cwd: string, succeeding: Exec)
    returns (r: Result<string, ScaffoldError>, ran: seq<Command>)
    ensures var dir := Resolve(cwd, answers.name);
      PathExists(t.files, dir) ==> r == Err(DirectoryExists(dir)) && ran == []
    ensures var dir := Resolve(cwd, answers.name);
      !PathExists(t.files, dir) && answers.framework != "next.js" && answers.framework != "react" ==>
        r == Err(UnsupportedFramework(answers.framework)) && ran == []
    ensures var dir := Resolve(cwd, answers.name);
      var cmd := if answers.framework == "next.js" then NextCommand(answers, cwd) else ViteCommand(answers, cwd);
      !PathExists(t.files, dir) && (answers.framework == "next.js" || answers.framework == "react") ==>
        ran == [cmd] && r == (if cmd in succeeding then Ok(dir) else Err(CommandFailed(cmd)))
  {
    var projectDir := Resolve(cwd, answers.name);
    var present := t.ExistsPath(projectDir);
    if present {
      return Err(DirectoryExists(projectDir)), [];
    }
    var command: Command;
    if answers.framework == "next.js" {
      command := NextCommand(answers, cwd);
    } else if answers.framework == "react" {
      command := ViteCommand(answers, cwd);
    } else {
      return Err(UnsupportedFramework(answers.framework)), [];
    }
    ran := [command];
    if command !in succeeding {
      return Err(CommandFailed(command)), ran;
    }
    return Ok(projectDir), ran;
  }
}
