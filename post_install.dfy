/** `src/postInstall.js`: the steps after scaffolding. Sass is installed, then the one
    post-processor of the chosen framework runs, then the optional 3D setup; `git init`
    is a separate, optional step. */
module PostInstall {
  import opened Wrappers
  import opened FileTree
  import opened Config
  import opened JsonValue
  import Assets
  import NextSetup
  import ReactSetup
  import ReactThree

  /** The sass install arguments: `install --save-dev` for npm, `add --dev` for yarn,
      `add -D` for any other manager. */
  function SassInstallArgs(pkgManager: string): (r: seq<string>)
    ensures |r| == 3 && r[2] == "sass"
    ensures r[0] == (if pkgManager == "npm" then "install" else "add")
    ensures r[1] == (if pkgManager == "npm" then "--save-dev" else if pkgManager == "yarn" then "--dev" else "-D")
  {
    var base := if pkgManager == "npm" then ["install", "--save-dev"]
                else if pkgManager == "yarn" then ["add", "--dev"] else ["add", "-D"];
    base + ["sass"]
  }

  function SassInstallCommand(pkgManager: string, projectDir: string): Command {
    Command(pkgManager, SassInstallArgs(pkgManager), projectDir)
  }

  /** The sass install and the three.js install use the same verb for every manager. */
  lemma InstallVerbsAgree(pkgManager: string, projectDir: string)
    ensures SassInstallCommand(pkgManager, projectDir).args[0] == ReactThree.ThreeInstallCommand(pkgManager, projectDir).args[0]
    ensures SassInstallCommand(pkgManager, projectDir).program == ReactThree.ThreeInstallCommand(pkgManager, projectDir).program
  {
  }

  /** A step of `addSassAndThree`, in the order they are started. */
  datatype Phase = SassInstall | NextPostProcess | ReactPostProcess | ThreeSetup

  /** The post-processing phases started once sass is installed: at most one framework
      post-processor, then the 3D setup. */
  function PostPhases(framework: string): seq<Phase> {
    (if framework == "next.js" then [NextPostProcess] else if framework == "react" then [ReactPostProcess] else [])
    + [ThreeSetup]
  }

  /** The tree after the framework post-processor; its failure is swallowed, keeping
      whatever it changed before failing. */
  function FrameworkFiles(files: Files, answers: Answers, projectDir: string,
                          stringify: Json -> string, src: Assets.AssetSource): Files
  {
    if answers.framework == "next.js" then NextSetup.NextProjectFiles(files, answers, projectDir, stringify, src)
    else ReactSetup.ReactProjectFiles(files, answers, projectDir, src)
  }

  /** The tree after the steps that follow a successful sass install. */
  function AfterSassFiles(files: Files, answers: Answers, projectDir: string, succeeding: Exec,
                          stringify: Json -> string, src: Assets.AssetSource, skipThreeInstall: bool): Files
  {
    var framed := FrameworkFiles(files, answers, projectDir, stringify, src);
    var threeOk := skipThreeInstall || (ReactThree.ThreeInstallCommand(answers.pkgManager, projectDir) in succeeding);
    if answers.want3d && threeOk then ReactThree.ThreeSceneFiles(framed, answers, projectDir) else framed
  }

  /** The framework branch of `addSassAndThree`: the next.js post-processor (whose failure
      is logged and passed over) or the react one, and the phase it started. */
  method RunFrameworkSetup(t: Tree, answers: Answers, projectDir: string,
                           stringify: Json -> string, src: Assets.AssetSource)
    returns (phase: seq<Phase>)
    modifies t
    ensures phase + [ThreeSetup] == PostPhases(answers.framework)
    ensures t.files == FrameworkFiles(old(t.files), answers, projectDir, stringify, src)
  {
    phase := [];
    if answers.framework == "next.js" {
      phase := [NextPostProcess];
      var nextOk := NextSetup.SetupNextProject(t, answers, projectDir, stringify, src);
    }
    if answers.framework == "react" {
      phase := [ReactPostProcess];
      ReactSetup.SetupReactProject(t, answers, projectDir, src);
    }
  }

  /** `addSassAndThree(answers, projectDir)`; `ok` is false where it throws. A failed sass
      install throws before anything else starts; a framework post-processor's failure is
      logged and passed over; a 3D install failure propagates. */
  method AddSassAndThree(t: Tree, answers: Answers, projectDir: string, succeeding: Exec,
                         stringify: Json -> string, src: Assets.AssetSource, skipThreeInstall: bool)
    returns (ok: bool, phases: seq<Phase>, ran: seq<Command>)
    modifies t
    ensures var sass := SassInstallCommand(answers.pkgManager, projectDir);
      sass !in succeeding ==> !ok && phases == [SassInstall] && ran == [sass] && t.files == old(t.files)
    ensures var sass := SassInstallCommand(answers.pkgManager, projectDir);
      sass in succeeding ==> (phases == [SassInstall] + PostPhases(answers.framework) &&
        ran == [sass] + (if answers.want3d && !skipThreeInstall
                         then [ReactThree.ThreeInstallCommand(answers.pkgManager, projectDir)] else []) &&
        t.files == AfterSassFiles(old(t.files), answers, projectDir, succeeding, stringify, src, skipThreeInstall))
    ensures ok <==> ((SassInstallCommand(answers.pkgManager, projectDir) in succeeding) &&
      (!answers.want3d || skipThreeInstall || (ReactThree.ThreeInstallCommand(answers.pkgManager, projectDir) in succeeding)))
  {
    var sass := SassInstallCommand(answers.pkgManager, projectDir);
    phases := [SassInstall];
    ran := [sass];
    if sass !in succeeding {
      return false, phases, ran;
    }
    var later: seq<Phase>;
    var threeRan: seq<Command>;
    ok, later, threeRan := AfterSass(t, answers, projectDir, succeeding, stringify, src, skipThreeInstall);
    phases := phases + later;
    ran := ran + threeRan;
  }

  /** What `addSassAndThree` does once sass is installed: the framework post-processor,
      then the 3D setup, whose install failure is the only one that propagates. */
  method AfterSass(t: Tree, answers: Answers, projectDir: string, succeeding: Exec,
                   stringify: Json -> string, src: Assets.AssetSource, skipThreeInstall: bool)
    returns (ok: bool, phases: seq<Phase>, ran: seq<Command>)
    modifies t
    ensures phases == PostPhases(answers.framework)
    ensures ran == (if answers.want3d && !skipThreeInstall
                    then [ReactThree.ThreeInstallCommand(answers.pkgManager, projectDir)] else [])
    ensures ok <==> !answers.want3d || skipThreeInstall || (ReactThree.ThreeInstallCommand(answers.pkgManager, projectDir) in succeeding)
    ensures t.files == AfterSassFiles(old(t.files), answers, projectDir, succeeding, stringify, src, skipThreeInstall)
  {
    var framePhase := RunFrameworkSetup(t, answers, projectDir, stringify, src);
    phases := framePhase + [ThreeSetup];
    ok, ran := ReactThree.SetupReactThree(t, answers, projectDir, skipThreeInstall, succeeding);
  }

  /** `initGit(answers, projectDir)`: `git init` in the project only when asked for; its
      failure is logged and passed over, so the step never fails. */
  method InitGit(answers: Answers, projectDir: string, succeeding: Exec) returns (ran: seq<Command>)
    ensures answers.git <==> ran == [Command("git", ["init"], projectDir)]
    ensures !answers.git <==> ran == []
  {
    if !answers.git {
      return [];
    }
    var gitInit := Command("git", ["init"], projectDir);
    var succeeded := gitInit in succeeding;
    return [gitInit];
  }
}
