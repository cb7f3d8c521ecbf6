/** `src/lib/scssEntry.js`: writes the global stylesheet and rewrites the first Vite entry
    module found so that it imports it. */
module ScssEntry {
  import opened Wrappers
  import opened Text
  import opened Paths
  import opened FileTree

  const EntryCandidates: seq<string> := ["src/main.tsx", "src/main.ts", "src/main.jsx", "src/main.js"]

  const StylesPath: string := "src/styles.scss"

  const DefaultScss: string :=
    "body { font-family: -apple-system, BlinkMacSystemFont, 'Segoe UI', Roboto, 'Helvetica Neue', Arial; background:#fff; }"

  const StylesImport: string := "import './styles.scss';"

  /** The rendered tree: `<App />` inside `React.StrictMode`. */
  const StrictTree: string := "    <React.StrictMode>\n        <App />\n    </React.StrictMode>\n"

  function AppImport(isTs: bool): string {
    if isTs then "import App from './App.tsx';" else "import App from './App.jsx';"
  }

  const EntryHead: string := "import React from 'react';\n"

  const EntryRender: string :=
    "\n\nconst rootElement = document.getElementById('root');\n\n"
    + "if (!rootElement) {\n    throw new Error('Root element not found');\n}\n\n"
    + "ReactDOM.createRoot(rootElement).render(\n"

  /** `buildEntryTemplate(isTs)`. */
  function BuildEntryTemplate(isTs: bool): (r: string)
    ensures StartsWith(r, EntryHead)
    ensures Contains(r, AppImport(isTs))
    ensures Contains(r, StylesImport)
    ensures Contains(r, StrictTree)
  {
    var parts := [EntryHead, "import ReactDOM from 'react-dom/client';\n", AppImport(isTs), "\n",
                  StylesImport, EntryRender, StrictTree, ");\n"];
    ConcatStartsWithFirst(parts);
    ConcatContainsPart(parts, 2);
    ConcatContainsPart(parts, 4);
    ConcatContainsPart(parts, 6);
    Concat(parts)
  }

  /** The tree after `ensureScssEntry`: the stylesheet always written, the first existing
      entry (if any) rewritten. */
  function ScssEntryFiles(files: Files, projectDir: string, content: string, isTs: bool): Files {
    var styles := files[Join(projectDir, StylesPath) := content];
    match FirstExisting(files, projectDir, EntryCandidates)
    case None => styles
    case Some(entry) => styles[entry := BuildEntryTemplate(isTs)]
  }

  /** `src/styles.scss` holds `content` whether or not an entry was found; only the first
      existing entry is rewritten, with the stylesheet import; other files keep their content. */
  lemma {:induction false} ScssEntryEffect(files: Files, projectDir: string, content: string, isTs: bool)
    ensures var after := ScssEntryFiles(files, projectDir, content, isTs);
      Join(projectDir, StylesPath) in after && after[Join(projectDir, StylesPath)] == content
    ensures var after := ScssEntryFiles(files, projectDir, content, isTs);
      match FirstExisting(files, projectDir, EntryCandidates)
      case None => true
      case Some(entry) => after[entry] == BuildEntryTemplate(isTs) && Contains(after[entry], StylesImport)
    ensures var after := ScssEntryFiles(files, projectDir, content, isTs);
      var untouched := p => p in files && p != Join(projectDir, StylesPath) &&
                              FirstExisting(files, projectDir, EntryCandidates) != Some(p);
      forall p :: untouched(p) ==> p in after && after[p] == files[p]
    ensures ScssEntryFiles(files, projectDir, content, isTs).Keys == files.Keys + {Join(projectDir, StylesPath)}
  {
    var r := FirstExistingIndex(files, projectDir, EntryCandidates);
    if r.Some? {
      assert EntryCandidates[r.value] != StylesPath;
      JoinInjective(projectDir, EntryCandidates[r.value], StylesPath);
    }
  }

  /** `ensureScssEntry(projectDir, { content = DEFAULT_SCSS, isTs = false })`. */
  method EnsureScssEntry(t: Tree, projectDir: string, content: string := DefaultScss, isTs: bool := false)
    modifies t
    ensures t.files == ScssEntryFiles(old(t.files), projectDir, content, isTs)
  {
    var scssPath := Join(projectDir, StylesPath);
    for i := 0 to |EntryCandidates|
      invariant t.files == old(t.files)
      invariant forall j :: 0 <= j < i ==> Join(projectDir, EntryCandidates[j]) !in t.files
    {
      var entryPath := Join(projectDir, EntryCandidates[i]);
      var present := t.Exists(entryPath);
      if !present {
        continue;
      }
      FirstExistingAt(t.files, projectDir, EntryCandidates, i);
      t.Write(scssPath, content);
      t.Write(entryPath, BuildEntryTemplate(isTs));
      return;
    }
    t.Write(scssPath, content);
  }
}
