/** `src/lib/reactThree.js`: installs the three.js packages and wires a demo scene into
    the React root component or the Next.js home page, idempotently. */
module ReactThree {
  import opened Wrappers
  import opened Text
  import opened Paths
  import opened FileTree
  import opened Config

  const ThreePackages: seq<string> := ["three", "@react-three/fiber", "@react-three/drei"]

  const ReactAppCandidates: seq<string> := ["src/App.tsx", "src/App.jsx", "src/App.js"]

  /** Next.js page candidates as this file lists them (`page.jsx` before `page.js`). */
  function NextPageCandidates(isTs: bool): seq<string> {
    if isTs then ["page.tsx", "page.ts"] else ["page.jsx", "page.js"]
  }

  const ImportLine: string := "import ThreeScene from './ThreeScene';"

  const SceneMarker: string := "<ThreeScene"

  const SceneTag: string := "<ThreeScene />"

  const FooterMarker: string := "<footer"

  const StylesMarker: string := ".scene"

  const SceneHead: string := "import " + "{ Canvas } from '@react-three/fiber';\n"

  const SceneComponent: string := SceneHead + SceneBody

  const SceneBody: string :=
    "import { OrbitControls } from '@react-three/drei';\n\n"
    + "export default function ThreeScene() {\n  return (\n"
    + "    <Canvas style={{ height: '100vh' }} shadows>\n      <ambientLight />\n"
    + "      <pointLight position={[10, 10, 10]} />\n      <mesh>\n"
    + "        <boxGeometry args={[1, 1, 1]} />\n        <meshStandardMaterial color=\"orange\" />\n"
    + "      </mesh>\n      <OrbitControls />\n    </Canvas>\n  );\n}\n"

  /** `buildSceneTemplate({ useClient })`: the scene component, opened by the client
      directive exactly when `useClient` is set. */
  function BuildSceneTemplate(useClient: bool): (r: string)
    ensures HasClientDirective(r) <==> useClient
    ensures EndsWith(r, SceneComponent)
  {
    if useClient then
      StartsWithConcat("'use client';", "\n\n" + SceneComponent);
      EndsWithConcat("\n\n", SceneComponent);
      EndsWithExtend("'use client';", "\n\n" + SceneComponent, SceneComponent);
      "'use client';" + ("\n\n" + SceneComponent)
    else
      SceneComponentOpensWithImport();
      NoDirectiveBeforeLetter(SceneComponent);
      EndsWithConcat("", SceneComponent);
      assert "" + SceneComponent == SceneComponent;
      SceneComponent
  }

  lemma SceneComponentOpensWithImport()
    ensures |SceneComponent| > 0 && SceneComponent[0] == 'i'
  {
    assert SceneHead[0] == 'i';
    assert (SceneHead + SceneBody)[0] == SceneHead[0];
  }

  /** `sceneStyles()`: the `.scene` rules. */
  function SceneStyles(): (r: string)
    ensures Contains(r, StylesMarker)
  {
    var parts := ["\n", StylesMarker,
      " {\n    margin-top: 32px;\n    border-radius: 18px;\n    overflow: hidden;\n    min-height: 320px;\n"
      + "    background: linear-gradient(120deg, #050e2d, #0c1a3f);\n"
      + "    box-shadow: 0 20px 40px rgba(5, 14, 45, 0.45);\n}\n\n"
      + ".scene canvas {\n    width: 100%;\n    height: 100%;\n    display: block;\n}\n"];
    ConcatContainsPart(parts, 1);
    Concat(parts)
  }

  /** `resolveInstallArgs(pkgManager)`. */
  function ResolveInstallArgs(pkgManager: string): (r: seq<string>)
    ensures |r| == 1 && (r[0] == "install" <==> pkgManager == "npm") && (pkgManager != "npm" ==> r[0] == "add")
  {
    if pkgManager == "npm" then ["install"] else ["add"]
  }

  /** The package-install command of `installThreeDependencies`. */
  function ThreeInstallCommand(pkgManager: string, projectDir: string): (c: Command)
    ensures c.program == pkgManager && c.cwd == projectDir && |c.args| == 4 && c.args[1..] == ThreePackages
    ensures c.args[0] == (if pkgManager == "npm" then "install" else "add")
  {
    Command(pkgManager, ResolveInstallArgs(pkgManager) + ThreePackages, projectDir)
  }

  /** Where `insertImport` puts the import: after the first line when the content opens
      with the client directive, else at the start. */
  function ImportPosition(content: string): (k: nat)
    ensures k <= |content|
    ensures !HasClientDirective(content) || '\n' !in content ==> k == 0
    ensures HasClientDirective(content) && '\n' in content ==>
      0 < k && content[k - 1] == '\n' && '\n' !in content[..k - 1]
  {
    ContainsChar(content, '\n');
    if HasClientDirective(content) then
      var nl := IndexOf(content, "\n");
      if nl == -1 then 0
      else
        OccursChar(content, '\n', nl);
        assert forall j: nat :: j < nl ==> content[j] != '\n' by {
          forall j: nat | j < nl ensures content[j] != '\n' {
            OccursChar(content, '\n', j);
          }
        }
        nl + 1
    else 0
  }

  /** `insertImport(content, importLine)`: a no-op when the line is present; otherwise the
      line and a newline go in at `ImportPosition`, the content surviving around them. */
  function InsertImport(content: string, importLine: string): (r: string)
    ensures Contains(r, importLine)
    ensures Contains(content, importLine) ==> r == content
    ensures !Contains(content, importLine) ==>
      var k := ImportPosition(content);
      |r| == |content| + |importLine| + 1 &&
      r[..k] == content[..k] && r[k..k + |importLine| + 1] == importLine + "\n" &&
      r[k + |importLine| + 1..] == content[k..]
  {
    if Contains(content, importLine) then content
    else
      var k := ImportPosition(content);
      ContainsMiddle(content[..k], importLine, "\n" + content[k..]);
      assert content[..k] + importLine + ("\n" + content[k..]) == content[..k] + importLine + "\n" + content[k..];
      content[..k] + importLine + "\n" + content[k..]
  }

  /** A second `insertImport` of the same line changes nothing. */
  lemma InsertImportIdempotent(content: string, importLine: string)
    ensures InsertImport(InsertImport(content, importLine), importLine) == InsertImport(content, importLine)
  {
  }

  /** Content that is only the directive, without a newline, gets the import in front of
      the directive. */
  lemma DirectiveWithoutNewline(content: string, importLine: string)
    requires HasClientDirective(content) && '\n' !in content && !Contains(content, importLine)
    ensures InsertImport(content, importLine) == importLine + "\n" + content
  {
    assert content[..0] == "" && content[0..] == content;
  }

  const SceneSection: string :=
    Concat(["\n        <section className={styles.scene} aria-label=\"Interactive 3D preview\">\n          ",
            SceneTag, "\n        </section>\n"])

  lemma SceneSectionHasTag()
    ensures Contains(SceneSection, SceneTag) && Contains(SceneSection, SceneMarker)
  {
    ConcatContainsPart(["\n        <section className={styles.scene} aria-label=\"Interactive 3D preview\">\n          ",
                        SceneTag, "\n        </section>\n"], 1);
    assert SceneTag == SceneMarker + " />";
    StartsWithConcat(SceneMarker, " />");
    ContainsPrefix(SceneTag, SceneMarker);
    ContainsTransitive(SceneSection, SceneTag, SceneMarker);
  }

  /** `insertSceneSection(content)`: a no-op when `<ThreeScene` is present; otherwise the
      section goes immediately before the first `<footer`, or at the end without one. */
  function InsertSceneSection(content: string): (r: string)
    ensures Contains(r, SceneMarker)
    ensures Contains(content, SceneMarker) ==> r == content
    ensures !Contains(content, SceneMarker) ==> Contains(r, SceneTag)
    ensures !Contains(content, SceneMarker) && !Contains(content, FooterMarker) ==> r == content + SceneSection
    ensures !Contains(content, SceneMarker) && Contains(content, FooterMarker) ==>
      var f := IndexOf(content, FooterMarker);
      0 <= f && OccursAt(content, FooterMarker, f) &&
      r == content[..f] + SceneSection + content[f..]
  {
    SceneSectionHasTag();
    if Contains(content, SceneMarker) then content
    else
      var f := IndexOf(content, FooterMarker);
      if f == -1 then
        ContainsRight(content, SceneSection, SceneTag);
        ContainsRight(content, SceneSection, SceneMarker);
        content + SceneSection
      else
        ContainsLeft(SceneSection, content[f..], SceneTag);
        ContainsRight(content[..f], SceneSection + content[f..], SceneTag);
        ContainsLeft(SceneSection, content[f..], SceneMarker);
        ContainsRight(content[..f], SceneSection + content[f..], SceneMarker);
        assert content[..f] + (SceneSection + content[f..]) == content[..f] + SceneSection + content[f..];
        content[..f] + SceneSection + content[f..]
  }

  /** A second `insertSceneSection` changes nothing. */
  lemma InsertSceneSectionIdempotent(content: string)
    ensures InsertSceneSection(InsertSceneSection(content)) == InsertSceneSection(content)
  {
  }

  /** Inserting the section never splits an occurrence of text without a `<`, such as the
      scene import line. */
  lemma InsertSceneSectionKeeps(content: string, w: string)
    requires Contains(content, w) && '<' !in w
    ensures Contains(InsertSceneSection(content), w)
  {
    if !Contains(content, SceneMarker) {
      var f := IndexOf(content, FooterMarker);
      if f == -1 {
        ContainsLeft(content, SceneSection, w);
      } else {
        assert content[f] == '<' by {
          assert content[f..f + |FooterMarker|] == FooterMarker;
        }
        ContainsSplit(content, w, f);
        if Contains(content[..f], w) {
          ContainsLeft(content[..f], SceneSection, w);
          ContainsLeft(content[..f] + SceneSection, content[f..], w);
        } else {
          ContainsRight(content[..f] + SceneSection, content[f..], w);
        }
      }
    }
  }

  /** The tree after `ensureStyles(path)`: the `.scene` rules appended to an existing
      stylesheet that lacks them. */
  function WithSceneStyles(files: Files, path: string): (r: Files)
    ensures r.Keys == files.Keys
    ensures forall p :: p in files && p != path ==> r[p] == files[p]
    ensures path in files ==> Contains(r[path], StylesMarker) && StartsWith(r[path], files[path])
    ensures path in files && !Contains(files[path], StylesMarker) ==> r[path] == files[path] + "\n" + SceneStyles()
    ensures path !in files || Contains(files[path], StylesMarker) ==> r == files
  {
    if path in files && !Contains(files[path], StylesMarker) then
      SceneStylesAppended(files[path]);
      files[path := files[path] + "\n" + SceneStyles()]
    else files
  }

  lemma SceneStylesAppended(styles: string)
    ensures Contains(styles + "\n" + SceneStyles(), StylesMarker)
    ensures StartsWith(styles + "\n" + SceneStyles(), styles)
  {
    ContainsRight(styles + "\n", SceneStyles(), StylesMarker);
    assert styles + "\n" + SceneStyles() == styles + ("\n" + SceneStyles());
    StartsWithConcat(styles, "\n" + SceneStyles());
  }

  /** A second `ensureStyles` changes nothing. */
  lemma WithSceneStylesIdempotent(files: Files, path: string)
    ensures WithSceneStyles(WithSceneStyles(files, path), path) == WithSceneStyles(files, path)
  {
  }

  /** `ensureStyles(modulePath)`. */
  method EnsureStyles(t: Tree, modulePath: string)
    modifies t
    ensures t.files == WithSceneStyles(old(t.files), modulePath)
  {
    var present := t.Exists(modulePath);
    if !present {
      return;
    }
    var styles := t.Read(modulePath);
    if !Contains(styles, StylesMarker) {
      styles := styles + "\n" + SceneStyles();
      t.Write(modulePath, styles);
    }
  }

  /** `resolveExistingFile(baseDir, candidates)`: the first existing candidate, or null. */
  method ResolveExistingFile(t: Tree, baseDir: string, candidates: seq<string>) returns (r: Option<string>)
    ensures r == FirstExisting(t.files, baseDir, candidates)
    ensures r.Some? ==> r.value in t.files
  {
    for i := 0 to |candidates|
      invariant forall j :: 0 <= j < i ==> Join(baseDir, candidates[j]) !in t.files
    {
      var absolute := Join(baseDir, candidates[i]);
      var present := t.Exists(absolute);
      if present {
        FirstExistingAt(t.files, baseDir, candidates, i);
        return Some(absolute);
      }
    }
    return None;
  }

  /** Writing the scene, rewriting the entry (import, then section) and extending the
      stylesheet: the common tail of `setupReactScene` and `setupNextScene`. */
  function SceneWiring(files: Files, entry: string, scene: string, template: string, stylesPath: string): Files
    requires entry in files
  {
    var written := files[scene := template];
    WithSceneStyles(written[entry := RewriteEntry(written[entry])], stylesPath)
  }

  /** The entry rewrite: the import, then the section. */
  function RewriteEntry(content: string): string {
    InsertSceneSection(InsertImport(content, ImportLine))
  }

  /** Rewriting an already rewritten entry changes nothing: the import survives the
      section insertion, so neither step fires again. */
  lemma RewriteEntryIdempotent(content: string)
    ensures RewriteEntry(RewriteEntry(content)) == RewriteEntry(content)
  {
    var imported := InsertImport(content, ImportLine);
    var once := InsertSceneSection(imported);
    assert '<' !in ImportLine;
    InsertSceneSectionKeeps(imported, ImportLine);
    assert InsertImport(once, ImportLine) == once;
  }

  /** Wiring the scene a second time changes nothing: no second import, section or
      `.scene` block, and the scene file is rewritten with the same text. */
  lemma SceneWiringIdempotent(files: Files, entry: string, scene: string, template: string, stylesPath: string)
    requires entry in files
    requires entry != scene && entry != stylesPath && scene != stylesPath
    ensures entry in SceneWiring(files, entry, scene, template, stylesPath)
    ensures var once := SceneWiring(files, entry, scene, template, stylesPath);
      SceneWiring(once, entry, scene, template, stylesPath) == once
  {
    var content := RewriteEntry(files[scene := template][entry]);
    var wired := files[scene := template][entry := content];
    var once := WithSceneStyles(wired, stylesPath);
    assert once == SceneWiring(files, entry, scene, template, stylesPath);
    assert once[scene] == template && once[entry] == content;
    RewriteEntryIdempotent(files[scene := template][entry]);
    UnchangedWrites(once, scene, template, entry, RewriteEntry(content));
    WithSceneStylesIdempotent(wired, stylesPath);
  }

  /** Writing what is already there leaves the tree as it is. */
  lemma UnchangedWrites(files: Files, a: string, va: string, b: string, vb: string)
    requires a in files && files[a] == va && b in files && files[b] == vb
    ensures files[a := va][b := vb] == files
  {
  }

  function ReactScenePath(projectDir: string, app: string): string {
    var isTs := EndsWith(app, ".tsx") || EndsWith(app, ".ts");
    Join(projectDir, if isTs then "src/ThreeScene.tsx" else "src/ThreeScene.jsx")
  }

  /** The tree after `setupReactScene`: unchanged when no root component exists. */
  function ReactSceneFiles(files: Files, projectDir: string): Files {
    match FirstExisting(files, projectDir, ReactAppCandidates)
    case None => files
    case Some(app) =>
      SceneWiring(files, app, ReactScenePath(projectDir, app), BuildSceneTemplate(false),
                  Join(projectDir, "src/App.module.scss"))
  }

  function NextAppDir(projectDir: string): string {
    Join(projectDir, "src/app")
  }

  function NextScenePath(projectDir: string, isTs: bool): string {
    Join(NextAppDir(projectDir), if isTs then "ThreeScene.tsx" else "ThreeScene.jsx")
  }

  /** The tree after `setupNextScene`: unchanged when no page exists. */
  function NextSceneFiles(files: Files, projectDir: string, isTs: bool): Files {
    match FirstExisting(files, NextAppDir(projectDir), NextPageCandidates(isTs))
    case None => files
    case Some(page) =>
      SceneWiring(files, page, NextScenePath(projectDir, isTs), BuildSceneTemplate(true),
                  Join(NextAppDir(projectDir), "page.module.scss"))
  }

  /** The scene file and the stylesheet are neither a root component candidate nor each other. */
  lemma ReactScenePathsDistinct(projectDir: string, app: string)
    ensures var scene := ReactScenePath(projectDir, app);
      var styles := Join(projectDir, "src/App.module.scss");
      scene != styles && forall c :: c in ReactAppCandidates ==> Join(projectDir, c) != scene && Join(projectDir, c) != styles
  {
    var sceneRel := if EndsWith(app, ".tsx") || EndsWith(app, ".ts") then "src/ThreeScene.tsx" else "src/ThreeScene.jsx";
    forall c | c in ReactAppCandidates
      ensures Join(projectDir, c) != Join(projectDir, sceneRel) && Join(projectDir, c) != Join(projectDir, "src/App.module.scss")
    {
      JoinInjective(projectDir, c, sceneRel);
      JoinInjective(projectDir, c, "src/App.module.scss");
    }
    JoinInjective(projectDir, sceneRel, "src/App.module.scss");
  }

  /** The scene file and the page module are neither a page candidate nor each other. */
  lemma NextScenePathsDistinct(projectDir: string, isTs: bool)
    ensures var appDir := NextAppDir(projectDir);
      var scene := NextScenePath(projectDir, isTs);
      var styles := Join(appDir, "page.module.scss");
      scene != styles && forall c :: c in NextPageCandidates(isTs) ==> Join(appDir, c) != scene && Join(appDir, c) != styles
  {
    var appDir := NextAppDir(projectDir);
    var sceneRel := if isTs then "ThreeScene.tsx" else "ThreeScene.jsx";
    forall c | c in NextPageCandidates(isTs)
      ensures Join(appDir, c) != Join(appDir, sceneRel) && Join(appDir, c) != Join(appDir, "page.module.scss")
    {
      JoinInjective(appDir, c, sceneRel);
      JoinInjective(appDir, c, "page.module.scss");
    }
    JoinInjective(appDir, sceneRel, "page.module.scss");
  }

  /** Running `setupReactScene` twice leaves the tree as one run left it. */
  lemma ReactSceneIdempotent(files: Files, projectDir: string)
    ensures ReactSceneFiles(ReactSceneFiles(files, projectDir), projectDir) == ReactSceneFiles(files, projectDir)
  {
    var idx := FirstExistingIndex(files, projectDir, ReactAppCandidates);
    if idx.Some? {
      var app := Join(projectDir, ReactAppCandidates[idx.value]);
      var scene := ReactScenePath(projectDir, app);
      var styles := Join(projectDir, "src/App.module.scss");
      ReactScenePathsDistinct(projectDir, app);
      var once := SceneWiring(files, app, scene, BuildSceneTemplate(false), styles);
      SceneWiringIdempotent(files, app, scene, BuildSceneTemplate(false), styles);
      FirstExistingAgrees(files, once, projectDir, ReactAppCandidates);
    }
  }

  /** Running `setupNextScene` twice leaves the tree as one run left it. */
  lemma NextSceneIdempotent(files: Files, projectDir: string, isTs: bool)
    ensures NextSceneFiles(NextSceneFiles(files, projectDir, isTs), projectDir, isTs) == NextSceneFiles(files, projectDir, isTs)
  {
    var appDir := NextAppDir(projectDir);
    var idx := FirstExistingIndex(files, appDir, NextPageCandidates(isTs));
    if idx.Some? {
      var page := Join(appDir, NextPageCandidates(isTs)[idx.value]);
      var scene := NextScenePath(projectDir, isTs);
      var styles := Join(appDir, "page.module.scss");
      NextScenePathsDistinct(projectDir, isTs);
      var once := SceneWiring(files, page, scene, BuildSceneTemplate(true), styles);
      SceneWiringIdempotent(files, page, scene, BuildSceneTemplate(true), styles);
      FirstExistingAgrees(files, once, appDir, NextPageCandidates(isTs));
    }
  }

  /** `setupReactScene(answers, projectDir)`. */
  method SetupReactScene(t: Tree, projectDir: string)
    modifies t
    ensures t.files == ReactSceneFiles(old(t.files), projectDir)
  {
    var appPath := ResolveExistingFile(t, projectDir, ReactAppCandidates);
    if appPath.None? {
      return;
    }
    var app := appPath.value;
    var scenePath := ReactScenePath(projectDir, app);
    t.Write(scenePath, BuildSceneTemplate(false));
    var appContent := t.Read(app);
    appContent := InsertImport(appContent, ImportLine);
    appContent := InsertSceneSection(appContent);
    t.Write(app, appContent);
    EnsureStyles(t, Join(projectDir, "src/App.module.scss"));
  }

  /** `setupNextScene(answers, projectDir)`. */
  method SetupNextScene(t: Tree, answers: Answers, projectDir: string)
    modifies t
    ensures t.files == NextSceneFiles(old(t.files), projectDir, answers.IsTs())
  {
    var appDir := NextAppDir(projectDir);
    var isTs := answers.IsTs();
    var pagePath := ResolveExistingFile(t, appDir, NextPageCandidates(isTs));
    if pagePath.None? {
      return;
    }
    var page := pagePath.value;
    t.Write(NextScenePath(projectDir, isTs), BuildSceneTemplate(true));
    var pageContent := t.Read(page);
    pageContent := InsertImport(pageContent, ImportLine);
    pageContent := InsertSceneSection(pageContent);
    t.Write(page, pageContent);
    EnsureStyles(t, Join(appDir, "page.module.scss"));
  }

  /** The tree after the scene-wiring phase of `setupReactThree`. */
  function ThreeSceneFiles(files: Files, answers: Answers, projectDir: string): Files {
    if answers.framework == "react" then ReactSceneFiles(files, projectDir)
    else if answers.framework == "next.js" then NextSceneFiles(files, projectDir, answers.IsTs())
    else files
  }

  /** The scene-wiring block of `setupReactThree`: the React or the Next.js wiring, or
      nothing for another framework. */
  method SetupScene(t: Tree, answers: Answers, projectDir: string)
    modifies t
    ensures t.files == ThreeSceneFiles(old(t.files), answers, projectDir)
  {
    if answers.framework == "react" {
      SetupReactScene(t, projectDir);
    } else if answers.framework == "next.js" {
      SetupNextScene(t, answers, projectDir);
    }
  }

  /** `setupReactThree(answers, projectDir)`: nothing unless `want3d`; the package install
      (skipped when `skipInstall`, the `CI_SKIP_THREE_INSTALL` switch) fails the call and
      leaves the tree alone; then the scene is wired for the chosen framework. */
  method SetupReactThree(t: Tree, answers: Answers, projectDir: string, skipInstall: bool, succeeding: Exec)
    returns (ok: bool, ran: seq<Command>)
    modifies t
    ensures !answers.want3d ==> ok && ran == [] && t.files == old(t.files)
    ensures answers.want3d ==> ran == (if skipInstall then [] else [ThreeInstallCommand(answers.pkgManager, projectDir)])
    ensures ok <==> !answers.want3d || skipInstall || (ThreeInstallCommand(answers.pkgManager, projectDir) in succeeding)
    ensures ok ==> t.files == (if answers.want3d then ThreeSceneFiles(old(t.files), answers, projectDir) else old(t.files))
    ensures !ok ==> t.files == old(t.files)
  {
    ran := [];
    if !answers.want3d {
      return true, ran;
    }
    if !skipInstall {
      var command := ThreeInstallCommand(answers.pkgManager, projectDir);
      ran := [command];
      if command !in succeeding {
        return false, ran;
      }
    }
    SetupScene(t, answers, projectDir);
    ok := true;
  }
}
