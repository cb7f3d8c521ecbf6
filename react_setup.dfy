/** `src/lib/reactSetup.js`: turns a fresh Vite React app into a SassWave one by removing
    the default styles and assets, writing the root component and its style module,
    wiring the global stylesheet, fetching the assets and rebranding `index.html`. */
module ReactSetup {
  import opened Wrappers
  import opened Text
  import opened Paths
  import opened FileTree
  import opened Config
  import opened IndexHtml
  import opened ScssEntry
  import Assets

  /** Root-component candidates: only `src/App.tsx` for TypeScript. */
  function AppCandidates(isTs: bool): seq<string> {
    if isTs then ["src/App.tsx"] else ["src/App.jsx", "src/App.js"]
  }

  /** The files of the Vite starter that SassWave replaces. */
  const DefaultCssFiles: seq<string> := ["src/index.css", "src/App.css", "public/vite.svg", "src/assets/react.svg"]

  const ModuleRel: string := "src/App.module.scss"

  const AppHeader: string := "import styles from './App.module.scss';\n"

  /** `globalsTemplate()`, the stylesheet handed to `ensureScssEntry`. */
  const AppGlobalsTemplate: string :=
@"@use ""sass:color"";
@font-face {
    font-family: ""Urbanist"";
    src: url(""/Urbanist-Regular.woff"") format(""woff"");
    font-weight: 400;
    font-style: normal;
    font-display: swap;
}

$font-family-base: ""Urbanist"", ""Inter"", ""Segoe UI"", system-ui, -apple-system, sans-serif;
$body-bg: #f4f6fb;
$body-color: #0d2440;
$muted-color: #5b6c84;

@mixin smooth-font {
    -webkit-font-smoothing: antialiased;
    -moz-osx-font-smoothing: grayscale;
}

* {
    margin: 0;
    padding: 0;
    box-sizing: border-box;
}

:root {
    font-family: $font-family-base;
    background-color: $body-bg;
    color: $body-color;
}

html,
body {
    height: 100%;
    width: 100%;
}

body {
    font-family: inherit;
    background-color: inherit;
    color: inherit;
    line-height: 1.5;
    @include smooth-font;
}

img {
    max-width: 100%;
    display: block;
    height: auto;
}

p {
    color: $muted-color;
}
"

  /** `appModuleTemplate()`, split at its `.page` class. */
  const AppModuleHead: string :=
@"@use ""sass:color"";

$palette-1: #e7f0fa;
$palette-2: #7ba4d0;
$palette-3: #2e5e99;
$palette-4: #0d2440;

$bg: $palette-1;
$panel: #ffffff;
$text-primary: $palette-3;
$text-secondary: #40546a;
$muted: #7a8aa3;

$btn-accent-start: $palette-2;
$btn-accent-end: $palette-3;
$btn-text: #ffffff;
$radius-lg: 12px;
$max-width: 1100px;

@mixin focus-ring($color) {
    outline: 3px solid color.change($color, $alpha: 0.18);
    outline-offset: 2px;
}

"

  const AppModuleRest: string :=
@" {
    background: $bg;
    min-height: 100vh;
    display: flex;
    align-items: center;
    justify-content: center;
    padding: 48px 20px;
}

.main {
    width: 100%;
    max-width: $max-width;
    background: linear-gradient(180deg, color.change($panel, $alpha: 0.6), color.change($panel, $alpha: 0.4));
    border-radius: 20px;
    padding: 56px 64px;
    box-shadow: 0 10px 30px color.change($palette-4, $alpha: 0.08);
    display: flex;
    flex-direction: column;
    gap: 32px;
}

.header {
    display: flex;
    align-items: center;
    justify-content: space-between;
}

.logo {
    width: 240px;
    height: auto;
    max-width: 100%;
}

.nav {
    display: flex;
    gap: 20px;
}

.nav a {
    color: $text-primary;
    font-weight: 600;
    text-decoration: none;
    opacity: 0.9;
}

.hero {
    display: flex;
    flex-direction: column;
    gap: 20px;
}

.h1 {
    font-size: 44px;
    line-height: 1.05;
    margin: 0;
    color: $text-primary;
    font-weight: 700;
}

.lead {
    max-width: 680px;
    color: $text-secondary;
    font-size: 18px;
    line-height: 1.6;
}

.ctas {
    display: flex;
    gap: 16px;
    margin-top: 8px;
}

a.primary {
    display: inline-flex;
    align-items: center;
    gap: 10px;
    padding: 12px 20px;
    border-radius: 999px;
    background: linear-gradient(90deg, $btn-accent-start, $btn-accent-end);
    color: $btn-text;
    font-weight: 700;
    text-decoration: none;
    box-shadow: 0 6px 18px color.change($palette-3, $alpha: 0.18);
    transition: transform 0.12s ease, box-shadow 0.12s ease;

    &:hover {
        transform: translateY(-2px);
    }

    &:focus {
        @include focus-ring($btn-accent-start);
    }
}

a.secondary {
    display: inline-flex;
    align-items: center;
    padding: 12px 20px;
    border-radius: 999px;
    color: $text-primary;
    border: 1px solid color.change($palette-4, $alpha: 0.25);
    background: transparent;
    text-decoration: none;
    font-weight: 600;
}

.footer {
    color: $muted;
    font-size: 13px;
}

@media (max-width: 880px) {
    .main { padding: 36px; }
    .h1 { font-size: 32px; }
}

@media (max-width: 640px) {
    .page { padding: 36px 16px; }
    .main { padding: 32px; }
    .header { flex-direction: column; align-items: flex-start; gap: 16px; }
    .nav { flex-wrap: wrap; gap: 12px; }
    .logo { width: 200px; }
    .h1 { font-size: 30px; }
    .lead { font-size: 16px; max-width: 100%; }
}

@media (max-width: 480px) {
    .main { padding: 28px 24px; }
    .header { align-items: center; text-align: center; }
    .nav { justify-content: center; width: 100%; }
    .hero { align-items: center; text-align: center; }
    .ctas { flex-direction: column; width: 100%; }
    .ctas a { justify-content: center; width: 100%; }
    .logo { width: 190px; }
}

@media (prefers-color-scheme: dark) {
    .page { background: $palette-4; }
    .main { background: linear-gradient(180deg, color.change(#081424, $alpha: 0.85), color.change(#081424, $alpha: 0.78)); }
    .nav a, .h1, .a.secondary { color: $palette-1; }
    .lead { color: #c7d7ec; }
    a.secondary { border: 1px solid color.change($palette-1, $alpha: 0.25); }
}
"

  /** The component body of `appComponentTemplate`, split at its footer. */
  const AppBodyHead: string :=
@"export default function App() {
  return (
    <div className={styles.page}>
      <main className={styles.main}>
        <header className={styles.header}>
          <img src=""/wordmark.png"" alt=""SassWave wordmark"" className={styles.logo} />
          <nav className={styles.nav} aria-label=""Primary"">
            <a href=""https://sasswave.in/components/"" target=""_blank"" rel=""noopener noreferrer"">Components</a>
            <a href=""https://sasswave.in/docs/"" target=""_blank"" rel=""noopener noreferrer"">Docs</a>
          </nav>
        </header>

        <section className={styles.hero}>
          <h1 className={styles.h1}>Design-ready React + Next.js components built with SCSS</h1>
          <p className={styles.lead}>
            SassWave is a focused UI kit with SCSS-first styling and accessible, animated components.
            Ship faster with curated building blocks.
          </p>
          <div className={styles.ctas}>
            <a className={styles.primary} href=""https://sasswave.in/docs/get-started/installation/"" target=""_blank"" rel=""noopener noreferrer"">
              Get Started
            </a>
            <a className={styles.secondary} href=""https://sasswave.in/components/"" target=""_blank"" rel=""noopener noreferrer"">
              Browse Components
            </a>
          </div>
        </section>

        "

  const AppBodyRest: string :=
@" className={styles.footer}>
          <p>&copy; {new Date().getFullYear()} SassWave -- Built with SCSS</p>
        </footer>
      </main>
    </div>
  );
}
"

  /** `appModuleTemplate()`: it defines the `.page` class the component uses. */
  function AppModuleTemplate(): (r: string)
    ensures Contains(r, ".page")
  {
    ConcatContainsPart([AppModuleHead, ".page", AppModuleRest], 1);
    Concat([AppModuleHead, ".page", AppModuleRest])
  }

  /** `appComponentTemplate(isTs)`: the same component for both languages, opening with
      the import of its style module and carrying a footer. */
  function AppComponentTemplate(isTs: bool): (r: string)
    ensures StartsWith(r, AppHeader)
    ensures Contains(r, "<footer")
  {
    var parts := [AppHeader, AppBodyHead, "<footer", AppBodyRest];
    ConcatStartsWithFirst(parts);
    ConcatContainsPart(parts, 2);
    Concat(parts)
  }

  /** `resolveAppPath(projectDir, isTs)`: the first existing candidate, else the first. */
  method ResolveAppPath(t: Tree, projectDir: string, isTs: bool) returns (r: string)
    ensures r == TargetFile(t.files, projectDir, AppCandidates(isTs))
    ensures r in t.files || forall c :: c in AppCandidates(isTs) ==> Join(projectDir, c) !in t.files
  {
    var candidates := AppCandidates(isTs);
    for i := 0 to |candidates|
      invariant forall j :: 0 <= j < i ==> Join(projectDir, candidates[j]) !in t.files
    {
      var absolute := Join(projectDir, candidates[i]);
      var present := t.Exists(absolute);
      if present {
        FirstExistingAt(t.files, projectDir, candidates, i);
        return absolute;
      }
    }
    return Join(projectDir, candidates[0]);
  }

  /** `removeDefaultCss(projectDir)`. */
  method RemoveDefaultCss(t: Tree, projectDir: string)
    modifies t
    ensures t.files == Without(old(t.files), projectDir, DefaultCssFiles)
  {
    for i := 0 to |DefaultCssFiles|
      invariant t.files == Without(old(t.files), projectDir, DefaultCssFiles[..i])
    {
      var target := Join(projectDir, DefaultCssFiles[i]);
      var present := t.Exists(target);
      assert DefaultCssFiles[..i + 1] == DefaultCssFiles[..i] + [DefaultCssFiles[i]];
      WithoutStep(old(t.files), projectDir, DefaultCssFiles[..i], DefaultCssFiles[i]);
      if present {
        t.Remove(target);
      }
    }
    assert DefaultCssFiles[..|DefaultCssFiles|] == DefaultCssFiles;
  }

  /** The tree after `tweakIndexHtml`: an existing `index.html` gets the SassWave favicon
      and title. */
  function TweakedIndexFiles(files: Files, projectDir: string): Files {
    var htmlPath := Join(projectDir, "index.html");
    if htmlPath in files then files[htmlPath := TweakedHtml(files[htmlPath])] else files
  }

  /** `tweakIndexHtml(projectDir)`. */
  method TweakIndexHtml(t: Tree, projectDir: string)
    modifies t
    ensures t.files == TweakedIndexFiles(old(t.files), projectDir)
  {
    var htmlPath := Join(projectDir, "index.html");
    var present := t.Exists(htmlPath);
    if !present {
      return;
    }
    var content := t.Read(htmlPath);
    var favicon := Leftmost(content, 0, s => FaviconMatchAt(content, s));
    if favicon.Some? {
      content := ReplaceFavicon(content);
    }
    var title := Leftmost(content, 0, s => TitleMatchAt(content, s));
    if title.Some? {
      content := ReplaceTitle(content);
    }
    t.Write(htmlPath, content);
  }

  /** The tree once the default styles are removed and the component, its module and the
      global stylesheet are written; the component path is resolved before the removal. */
  function ReactEntryFiles(files: Files, projectDir: string, isTs: bool): Files {
    var appPath := TargetFile(files, projectDir, AppCandidates(isTs));
    var cleaned := Without(files, projectDir, DefaultCssFiles);
    var written := cleaned[Join(projectDir, ModuleRel) := AppModuleTemplate()][appPath := AppComponentTemplate(isTs)];
    ScssEntryFiles(written, projectDir, AppGlobalsTemplate, isTs)
  }

  /** The tree after `setupReactProject`: unchanged unless the framework is React. */
  function ReactProjectFiles(files: Files, answers: Answers, projectDir: string, src: Assets.AssetSource): Files {
    if answers.framework != "react" then files
    else
      var entry := ReactEntryFiles(files, projectDir, answers.IsTs());
      TweakedIndexFiles(Assets.DownloadedFiles(entry, answers.framework, projectDir, src), projectDir)
  }

  /** `setupReactProject(answers, projectDir)`. */
  method SetupReactProject(t: Tree, answers: Answers, projectDir: string, src: Assets.AssetSource)
    modifies t
    ensures answers.framework != "react" ==> t.files == old(t.files)
    ensures t.files == ReactProjectFiles(old(t.files), answers, projectDir, src)
  {
    if answers.framework != "react" {
      return;
    }
    var isTs := answers.IsTs();
    var appPath := ResolveAppPath(t, projectDir, isTs);
    var modulePath := Join(projectDir, ModuleRel);
    RemoveDefaultCss(t, projectDir);
    t.Write(modulePath, AppModuleTemplate());
    t.Write(appPath, AppComponentTemplate(isTs));
    EnsureScssEntry(t, projectDir, AppGlobalsTemplate, isTs);
    Assets.DownloadAssets(t, answers.framework, projectDir, src);
    TweakIndexHtml(t, projectDir);
  }

  /** None of the paths this file writes is a default file it removes, and the component
      and its module are neither the stylesheet nor a main entry. */
  lemma ReactPathsDistinct(projectDir: string, app: string)
    requires app in AppCandidates(true) || app in AppCandidates(false)
    ensures forall c :: c in DefaultCssFiles ==>
      Join(projectDir, c) != Join(projectDir, ModuleRel) && Join(projectDir, c) != Join(projectDir, app) &&
      Join(projectDir, c) != Join(projectDir, StylesPath)
    ensures forall e :: e in EntryCandidates ==>
      Join(projectDir, e) != Join(projectDir, app) && Join(projectDir, e) != Join(projectDir, ModuleRel)
    ensures Join(projectDir, app) != Join(projectDir, StylesPath) && Join(projectDir, ModuleRel) != Join(projectDir, StylesPath)
    ensures Join(projectDir, app) != Join(projectDir, ModuleRel)
  {
    forall c | c in DefaultCssFiles
      ensures Join(projectDir, c) != Join(projectDir, ModuleRel) && Join(projectDir, c) != Join(projectDir, app) &&
              Join(projectDir, c) != Join(projectDir, StylesPath)
    {
      JoinInjective(projectDir, c, ModuleRel);
      JoinInjective(projectDir, c, app);
      JoinInjective(projectDir, c, StylesPath);
    }
    forall e | e in EntryCandidates
      ensures Join(projectDir, e) != Join(projectDir, app) && Join(projectDir, e) != Join(projectDir, ModuleRel)
    {
      JoinInjective(projectDir, e, app);
      JoinInjective(projectDir, e, ModuleRel);
    }
    JoinInjective(projectDir, app, StylesPath);
    JoinInjective(projectDir, ModuleRel, StylesPath);
    JoinInjective(projectDir, app, ModuleRel);
  }

  /** Before the assets arrive, the default styles and assets of the starter are gone. */
  lemma ReactEntryRemovesDefaults(files: Files, projectDir: string, isTs: bool)
    ensures var out := ReactEntryFiles(files, projectDir, isTs);
      forall c :: c in DefaultCssFiles ==> Join(projectDir, c) !in out
  {
    var i := TargetFileIsCandidate(files, projectDir, AppCandidates(isTs));
    var app := AppCandidates(isTs)[i];
    ReactPathsDistinct(projectDir, app);
    var written := Without(files, projectDir, DefaultCssFiles)
      [Join(projectDir, ModuleRel) := AppModuleTemplate()][Join(projectDir, app) := AppComponentTemplate(isTs)];
    ScssEntryEffect(written, projectDir, AppGlobalsTemplate, isTs);
  }

  /** Before the assets arrive, the component opens with its module import, the module
      defines `.page`, and `src/styles.scss` holds the globals. */
  lemma ReactEntryWrites(files: Files, projectDir: string, isTs: bool)
    ensures var out := ReactEntryFiles(files, projectDir, isTs);
      var appPath := TargetFile(files, projectDir, AppCandidates(isTs));
      appPath in out && out[appPath] == AppComponentTemplate(isTs) && StartsWith(out[appPath], AppHeader)
    ensures var out := ReactEntryFiles(files, projectDir, isTs);
      Join(projectDir, ModuleRel) in out && Contains(out[Join(projectDir, ModuleRel)], ".page")
    ensures var out := ReactEntryFiles(files, projectDir, isTs);
      Join(projectDir, StylesPath) in out && out[Join(projectDir, StylesPath)] == AppGlobalsTemplate
  {
    var i := TargetFileIsCandidate(files, projectDir, AppCandidates(isTs));
    var app := AppCandidates(isTs)[i];
    var appPath := Join(projectDir, app);
    ReactPathsDistinct(projectDir, app);
    var written := Without(files, projectDir, DefaultCssFiles)
      [Join(projectDir, ModuleRel) := AppModuleTemplate()][appPath := AppComponentTemplate(isTs)];
    ScssEntryEffect(written, projectDir, AppGlobalsTemplate, isTs);
    var idx := FirstExistingIndex(written, projectDir, EntryCandidates);
    if idx.Some? {
      assert EntryCandidates[idx.value] in EntryCandidates;
    }
  }
}
