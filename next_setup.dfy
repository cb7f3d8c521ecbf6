/** `src/lib/nextSetup.js`: turns a fresh Next.js app into a SassWave one by removing the
    Tailwind scaffolding and writing the SCSS entry files, then fetching the assets. */
module NextSetup {
  import opened Wrappers
  import opened Text
  import opened Paths
  import opened FileTree
  import opened Config
  import opened JsonValue
  import opened NextTemplates
  import Assets

  /** Root-layout candidates under `src/app`. */
  function LayoutCandidates(isTs: bool): seq<string> {
    if isTs then ["layout.tsx", "layout.ts"] else ["layout.js", "layout.jsx"]
  }

  /** Home-page candidates under `src/app`; for JavaScript `page.js` comes first. */
  function PageCandidates(isTs: bool): seq<string> {
    if isTs then ["page.tsx", "page.ts"] else ["page.js", "page.jsx"]
  }

  /** The files create-next-app generates for Tailwind and its demo page. */
  const TailwindArtifacts: seq<string> := [
    "tailwind.config.js", "tailwind.config.cjs", "tailwind.config.mjs",
    "postcss.config.js", "postcss.config.cjs", "postcss.config.mjs",
    "src/app/globals.css", "src/app/globals.scss", "src/app/page.module.css",
    "public/file.svg", "public/globe.svg", "public/next.svg", "public/vercel.svg", "public/window.svg"]

  const TailwindDeps: seq<string> := ["tailwindcss", "@tailwindcss/postcss"]

  const DependencySections: seq<string> := ["dependencies", "devDependencies"]

  /** `resolveTargetFile(baseDir, candidates)`. */
  method ResolveTargetFile(t: Tree, baseDir: string, candidates: seq<string>) returns (r: string)
    requires |candidates| > 0
    ensures r == TargetFile(t.files, baseDir, candidates)
    ensures r in t.files || forall c :: c in candidates ==> Join(baseDir, c) !in t.files
    ensures r in t.files ==> exists c :: c in candidates && r == Join(baseDir, c)
  {
    for i := 0 to |candidates|
      invariant forall j :: 0 <= j < i ==> Join(baseDir, candidates[j]) !in t.files
    {
      var full := Join(baseDir, candidates[i]);
      var present := t.Exists(full);
      if present {
        FirstExistingAt(t.files, baseDir, candidates, i);
        return full;
      }
    }
    return Join(baseDir, candidates[0]);
  }

  /** With both `page.js` and `page.jsx` present, this file rewrites `page.js` while the
      3D scene is wired into `page.jsx`: the two steps edit different files. */
  lemma PageOrderDisagrees(files: Files, appDir: string)
    requires Join(appDir, "page.js") in files && Join(appDir, "page.jsx") in files
    ensures TargetFile(files, appDir, PageCandidates(false)) == Join(appDir, "page.js")
    ensures FirstExisting(files, appDir, ["page.jsx", "page.js"]) == Some(Join(appDir, "page.jsx"))
    ensures Join(appDir, "page.js") != Join(appDir, "page.jsx")
  {
    FirstExistingAt(files, appDir, PageCandidates(false), 0);
    FirstExistingAt(files, appDir, ["page.jsx", "page.js"], 0);
    JoinInjective(appDir, "page.js", "page.jsx");
  }

  /** `section` without the entries for `deps` whose value is truthy. */
  function DropTruthy(section: map<string, Json>, deps: seq<string>): map<string, Json> {
    map k | k in section && !(k in deps && Truthy(section[k])) :: section[k]
  }

  /** The top-level fields with the listed dependency sections pruned; a section that is
      not an object has no dependency keys and stays as it is. */
  function PruneFields(fields: map<string, Json>, sections: seq<string>): map<string, Json> {
    map s | s in fields ::
      if s in sections && fields[s].JObject? then JObject(DropTruthy(fields[s].fields, TailwindDeps))
      else fields[s]
  }

  /** `package.json` after the Tailwind dependencies are deleted. */
  function PrunedPackage(pkg: Json): Json {
    if pkg.JObject? then JObject(PruneFields(pkg.fields, DependencySections)) else pkg
  }

  /** `pkg[sect]` when it is an object, the only case with dependency keys to delete. */
  function Section(pkg: Json, sect: string): Option<map<string, Json>> {
    match Field(pkg, sect)
    case Some(JObject(fields)) => Some(fields)
    case _ => None
  }

  /** Some entry of `section` named in `deps` is truthy. */
  predicate SectionTruthy(section: map<string, Json>, deps: seq<string>) {
    exists d :: d in deps && d in section && Truthy(section[d])
  }

  predicate SectionHasTailwind(pkg: Json, sect: string) {
    Section(pkg, sect).Some? && SectionTruthy(Section(pkg, sect).value, TailwindDeps)
  }

  /** Some dependency section holds a truthy Tailwind entry. */
  predicate HasTailwindDeps(pkg: Json) {
    exists s :: s in DependencySections && SectionHasTailwind(pkg, s)
  }

  /** Deleting one more name from a section. */
  lemma DropTruthyStep(section: map<string, Json>, deps: seq<string>, dep: string)
    ensures DropTruthy(section, deps + [dep]) ==
      if dep in section && Truthy(section[dep]) then DropTruthy(section, deps) - {dep}
      else DropTruthy(section, deps)
  {
  }

  /** The inner loop of the pruning: the Tailwind entries of one section. */
  method PruneSection(section: map<string, Json>) returns (kept: map<string, Json>, changed: bool)
    ensures kept == DropTruthy(section, TailwindDeps)
    ensures changed <==> SectionTruthy(section, TailwindDeps)
  {
    kept := section;
    changed := false;
    for j := 0 to |TailwindDeps|
      invariant kept == DropTruthy(section, TailwindDeps[..j])
      invariant changed <==> SectionTruthy(section, TailwindDeps[..j])
    {
      var dep := TailwindDeps[j];
      assert TailwindDeps[..j + 1] == TailwindDeps[..j] + [dep];
      DropTruthyStep(section, TailwindDeps[..j], dep);
      if dep in kept && Truthy(kept[dep]) {
        kept := kept - {dep};
        changed := true;
      }
    }
    assert TailwindDeps[..|TailwindDeps|] == TailwindDeps;
  }

  /** Pruning one more section. */
  lemma PruneFieldsStep(fields: map<string, Json>, sections: seq<string>, sect: string)
    ensures PruneFields(fields, sections + [sect]) ==
      if sect in fields && fields[sect].JObject?
      then PruneFields(fields, sections)[sect := JObject(DropTruthy(fields[sect].fields, TailwindDeps))]
      else PruneFields(fields, sections)
  {
  }

  /** The pruning loops of `removeTailwindArtifacts`, on the parsed `package.json`. */
  method PruneTailwindDeps(pkg: Json) returns (pruned: Json, changed: bool)
    ensures pruned == PrunedPackage(pkg)
    ensures changed <==> HasTailwindDeps(pkg)
  {
    if !pkg.JObject? {
      return pkg, false;
    }
    var fields := pkg.fields;
    changed := false;
    assert PruneFields(pkg.fields, []) == pkg.fields;
    for i := 0 to |DependencySections|
      invariant fields == PruneFields(pkg.fields, DependencySections[..i])
      invariant changed <==> exists s :: s in DependencySections[..i] && SectionHasTailwind(pkg, s)
    {
      var sect := DependencySections[i];
      assert DependencySections[..i + 1] == DependencySections[..i] + [sect];
      PruneFieldsStep(pkg.fields, DependencySections[..i], sect);
      if sect !in fields || !Truthy(fields[sect]) || !fields[sect].JObject? {
        // a missing or non-object section has no dependency entry to delete
        continue;
      }
      var kept, sectionChanged := PruneSection(fields[sect].fields);
      changed := changed || sectionChanged;
      fields := fields[sect := JObject(kept)];
    }
    assert DependencySections[..|DependencySections|] == DependencySections;
    return JObject(fields), changed;
  }

  /** Pruning changes `package.json` exactly when it holds a truthy Tailwind dependency,
      which is when `removeTailwindArtifacts` rewrites it. */
  lemma PrunedChangesIff(pkg: Json)
    ensures PrunedPackage(pkg) != pkg <==> HasTailwindDeps(pkg)
  {
    if HasTailwindDeps(pkg) {
      var s :| s in DependencySections && SectionHasTailwind(pkg, s);
      var section := Section(pkg, s).value;
      var d :| d in TailwindDeps && d in section && Truthy(section[d]);
      assert d !in DropTruthy(section, TailwindDeps);
      assert PrunedPackage(pkg).fields[s] != pkg.fields[s];
    } else if pkg.JObject? {
      forall s | s in pkg.fields && s in DependencySections && pkg.fields[s].JObject?
        ensures DropTruthy(pkg.fields[s].fields, TailwindDeps) == pkg.fields[s].fields
      {
        assert !SectionHasTailwind(pkg, s);
      }
      assert PruneFields(pkg.fields, DependencySections) == pkg.fields;
    }
  }

  /** A pruned section has no truthy Tailwind entry left. */
  lemma PrunedSectionClean(pkg: Json, s: string)
    requires s in DependencySections
    ensures !SectionHasTailwind(PrunedPackage(pkg), s)
  {
    var p := PrunedPackage(pkg);
    if Section(p, s).Some? {
      assert pkg.JObject? && s in pkg.fields && pkg.fields[s].JObject?;
      assert Section(p, s).value == DropTruthy(pkg.fields[s].fields, TailwindDeps);
    }
  }

  /** After pruning no truthy Tailwind entry is left, every other top-level field and
      every other dependency entry is kept, and pruning again changes nothing. */
  lemma PrunedPackageFacts(pkg: Json)
    ensures !HasTailwindDeps(PrunedPackage(pkg))
    ensures PrunedPackage(PrunedPackage(pkg)) == PrunedPackage(pkg)
    ensures pkg.JObject? ==> PrunedPackage(pkg).JObject? && PrunedPackage(pkg).fields.Keys == pkg.fields.Keys
    ensures pkg.JObject? ==> forall s :: s in pkg.fields && s !in DependencySections ==>
      PrunedPackage(pkg).fields[s] == pkg.fields[s]
    ensures forall s, d :: s in DependencySections && d !in TailwindDeps && Section(pkg, s).Some? ==>
      Section(PrunedPackage(pkg), s).Some? &&
      (d in Section(pkg, s).value <==> d in Section(PrunedPackage(pkg), s).value) &&
      (d in Section(pkg, s).value ==> Section(PrunedPackage(pkg), s).value[d] == Section(pkg, s).value[d])
  {
    var p := PrunedPackage(pkg);
    forall s | s in DependencySections
      ensures !SectionHasTailwind(p, s)
    {
      PrunedSectionClean(pkg, s);
    }
    PrunedChangesIff(p);
  }

  /** What `removeTailwindArtifacts` leaves behind, and whether it returned normally. */
  datatype Outcome = Outcome(files: Files, ok: bool)

  function PackagePath(projectDir: string): string {
    Join(projectDir, "package.json")
  }

  /** The tree after `removeTailwindArtifacts`: the artifacts deleted; then, when
      `package.json` exists, it is parsed (a parse failure, or a `null` document whose
      section lookup throws, fails the call) and rewritten only if pruning changed it. */
  function CleanedFiles(files: Files, projectDir: string, parseJson: string -> Option<Json>,
                        stringify: Json -> string): Outcome
  {
    var removed := Without(files, projectDir, TailwindArtifacts);
    var pkgPath := PackagePath(projectDir);
    if pkgPath !in removed then Outcome(removed, true)
    else match parseJson(removed[pkgPath])
      case None => Outcome(removed, false)
      case Some(pkg) =>
        if pkg.JNull? then Outcome(removed, false)
        else if HasTailwindDeps(pkg) then Outcome(removed[pkgPath := stringify(PrunedPackage(pkg))], true)
        else Outcome(removed, true)
  }

  /** Every artifact is gone whatever happens to `package.json`, nothing outside the
      artifacts and `package.json` changes, and `package.json` changes only when it held a
      truthy Tailwind dependency. */
  lemma CleanedFilesFacts(files: Files, projectDir: string, parseJson: string -> Option<Json>,
                          stringify: Json -> string)
    ensures var out := CleanedFiles(files, projectDir, parseJson, stringify);
      forall rel :: rel in TailwindArtifacts ==> Join(projectDir, rel) !in out.files
    ensures var out := CleanedFiles(files, projectDir, parseJson, stringify);
      forall p :: p in files && p != PackagePath(projectDir) && p !in out.files ==>
        exists rel :: rel in TailwindArtifacts && p == Join(projectDir, rel)
    ensures var out := CleanedFiles(files, projectDir, parseJson, stringify);
      forall p :: p in out.files && p != PackagePath(projectDir) ==> p in files && out.files[p] == files[p]
    ensures var out := CleanedFiles(files, projectDir, parseJson, stringify);
      var pkgPath := PackagePath(projectDir);
      pkgPath in files ==> (pkgPath in out.files &&
        (out.files[pkgPath] != files[pkgPath] ==>
          parseJson(files[pkgPath]).Some? && HasTailwindDeps(parseJson(files[pkgPath]).value)))
    ensures PackagePath(projectDir) !in files ==> CleanedFiles(files, projectDir, parseJson, stringify).ok
  {
    forall rel | rel in TailwindArtifacts
      ensures PackagePath(projectDir) != Join(projectDir, rel)
    {
      JoinInjective(projectDir, "package.json", rel);
    }
  }

  /** The first loop of `removeTailwindArtifacts`: every artifact that exists is removed. */
  method RemoveArtifactFiles(t: Tree, projectDir: string)
    modifies t
    ensures t.files == Without(old(t.files), projectDir, TailwindArtifacts)
  {
    for i := 0 to |TailwindArtifacts|
      invariant t.files == Without(old(t.files), projectDir, TailwindArtifacts[..i])
    {
      var full := Join(projectDir, TailwindArtifacts[i]);
      var present := t.Exists(full);
      assert TailwindArtifacts[..i + 1] == TailwindArtifacts[..i] + [TailwindArtifacts[i]];
      WithoutStep(old(t.files), projectDir, TailwindArtifacts[..i], TailwindArtifacts[i]);
      if present {
        t.Remove(full);
      }
    }
    assert TailwindArtifacts[..|TailwindArtifacts|] == TailwindArtifacts;
  }

  /** `removeTailwindArtifacts(projectDir)`; `ok` is false where the source throws. */
  method RemoveTailwindArtifacts(t: Tree, projectDir: string, parseJson: string -> Option<Json>,
                                 stringify: Json -> string) returns (ok: bool)
    modifies t
    ensures Outcome(t.files, ok) == CleanedFiles(old(t.files), projectDir, parseJson, stringify)
  {
    RemoveArtifactFiles(t, projectDir);
    var pkgPath := PackagePath(projectDir);
    var present := t.Exists(pkgPath);
    if !present {
      return true;
    }
    var raw := t.Read(pkgPath);
    var parsed := parseJson(raw);
    if parsed.None? || parsed.value.JNull? {
      return false;
    }
    var pruned, changed := PruneTailwindDeps(parsed.value);
    if changed {
      t.Write(pkgPath, stringify(pruned));
    }
    return true;
  }

  function AppDir(projectDir: string): string {
    Join(projectDir, "src/app")
  }

  /** The four entry files written over the cleaned tree. */
  function EntryFiles(files: Files, projectDir: string, isTs: bool): Files {
    var appDir := AppDir(projectDir);
    var layoutPath := TargetFile(files, appDir, LayoutCandidates(isTs));
    var pagePath := TargetFile(files, appDir, PageCandidates(isTs));
    files[Join(appDir, "globals.scss") := GlobalsTemplate]
         [Join(appDir, "page.module.scss") := PageModuleTemplate()]
         [layoutPath := LayoutTemplate(isTs)]
         [pagePath := PageTemplate()]
  }

  /** The tree after `setupNextProject`: unchanged past the cleanup when that throws. */
  function NextProjectFiles(files: Files, answers: Answers, projectDir: string,
                            stringify: Json -> string, src: Assets.AssetSource): Files
  {
    var cleaned := CleanedFiles(files, projectDir, src.parseJson, stringify);
    if !cleaned.ok then cleaned.files
    else Assets.DownloadedFiles(EntryFiles(cleaned.files, projectDir, answers.IsTs()),
                                answers.framework, projectDir, src)
  }

  /** The four entry paths are distinct, so no write overwrites another. */
  lemma EntryPathsDistinct(files: Files, projectDir: string, isTs: bool)
    ensures var appDir := AppDir(projectDir);
      var layoutPath := TargetFile(files, appDir, LayoutCandidates(isTs));
      var pagePath := TargetFile(files, appDir, PageCandidates(isTs));
      layoutPath != pagePath &&
      Join(appDir, "globals.scss") != Join(appDir, "page.module.scss") &&
      layoutPath != Join(appDir, "globals.scss") && pagePath != Join(appDir, "globals.scss") &&
      layoutPath != Join(appDir, "page.module.scss") && pagePath != Join(appDir, "page.module.scss")
  {
    var appDir := AppDir(projectDir);
    var li := TargetFileIsCandidate(files, appDir, LayoutCandidates(isTs));
    var pi := TargetFileIsCandidate(files, appDir, PageCandidates(isTs));
    var layout := LayoutCandidates(isTs)[li];
    var page := PageCandidates(isTs)[pi];
    JoinInjective(appDir, "globals.scss", "page.module.scss");
    JoinInjective(appDir, "globals.scss", layout);
    JoinInjective(appDir, "globals.scss", page);
    JoinInjective(appDir, "page.module.scss", layout);
    JoinInjective(appDir, "page.module.scss", page);
    JoinInjective(appDir, layout, page);
  }

  /** Each entry file holds its template (whose contents the templates' own contracts
      describe), and no file of the cleaned tree disappears. */
  lemma EntryFilesFacts(files: Files, projectDir: string, isTs: bool)
    ensures var out := EntryFiles(files, projectDir, isTs);
      var appDir := AppDir(projectDir);
      var layoutPath := TargetFile(files, appDir, LayoutCandidates(isTs));
      var pagePath := TargetFile(files, appDir, PageCandidates(isTs));
      out[Join(appDir, "globals.scss")] == GlobalsTemplate &&
      out[Join(appDir, "page.module.scss")] == PageModuleTemplate() &&
      out[layoutPath] == LayoutTemplate(isTs) && out[pagePath] == PageTemplate()
    ensures forall p :: p in files ==> p in EntryFiles(files, projectDir, isTs)
  {
    EntryPathsDistinct(files, projectDir, isTs);
    var appDir := AppDir(projectDir);
    FourWrites(files, Join(appDir, "globals.scss"), Join(appDir, "page.module.scss"),
               TargetFile(files, appDir, LayoutCandidates(isTs)), TargetFile(files, appDir, PageCandidates(isTs)),
               GlobalsTemplate, PageModuleTemplate(), LayoutTemplate(isTs), PageTemplate());
  }

  /** Four writes to distinct paths each leave their own content and drop no file. */
  lemma FourWrites(files: Files, k1: string, k2: string, k3: string, k4: string,
                   v1: string, v2: string, v3: string, v4: string)
    requires k1 != k2 && k1 != k3 && k1 != k4 && k2 != k3 && k2 != k4 && k3 != k4
    ensures var out := files[k1 := v1][k2 := v2][k3 := v3][k4 := v4];
      out[k1] == v1 && out[k2] == v2 && out[k3] == v3 && out[k4] == v4 &&
      forall p :: p in files ==> p in out
  {
  }

  /** `globals.scss` is among the Tailwind artifacts the cleanup deletes, and the entry
      files write it again. */
  lemma GlobalsRemovedThenRewritten(files: Files, projectDir: string, parseJson: string -> Option<Json>,
                                    stringify: Json -> string, isTs: bool)
    ensures var cleaned := CleanedFiles(files, projectDir, parseJson, stringify);
      var globals := Join(AppDir(projectDir), "globals.scss");
      globals == Join(projectDir, "src/app/globals.scss") && globals !in cleaned.files &&
      EntryFiles(cleaned.files, projectDir, isTs)[globals] == GlobalsTemplate
  {
    var cleaned := CleanedFiles(files, projectDir, parseJson, stringify);
    GlobalsPathAgrees(projectDir);
    GlobalsIsArtifact(files, projectDir, parseJson, stringify);
    EntryFilesFacts(cleaned.files, projectDir, isTs);
  }

  lemma GlobalsPathAgrees(projectDir: string)
    ensures Join(AppDir(projectDir), "globals.scss") == Join(projectDir, "src/app/globals.scss")
  {
    assert "src/app" + "/" + "globals.scss" == "src/app/globals.scss";
  }

  lemma GlobalsIsArtifact(files: Files, projectDir: string, parseJson: string -> Option<Json>,
                          stringify: Json -> string)
    ensures Join(projectDir, "src/app/globals.scss") !in CleanedFiles(files, projectDir, parseJson, stringify).files
  {
    CleanedFilesFacts(files, projectDir, parseJson, stringify);
    assert "src/app/globals.scss" in TailwindArtifacts;
  }

  /** `setupNextProject(answers, projectDir)`; `ok` is false where the cleanup throws,
      and then nothing after it runs. */
  method SetupNextProject(t: Tree, answers: Answers, projectDir: string,
                          stringify: Json -> string, src: Assets.AssetSource) returns (ok: bool)
    modifies t
    ensures ok == CleanedFiles(old(t.files), projectDir, src.parseJson, stringify).ok
    ensures t.files == NextProjectFiles(old(t.files), answers, projectDir, stringify, src)
  {
    var appDir := AppDir(projectDir);
    ok := RemoveTailwindArtifacts(t, projectDir, src.parseJson, stringify);
    if !ok {
      return;
    }
    var isTs := answers.IsTs();
    var globalsPath := Join(appDir, "globals.scss");
    var modulePath := Join(appDir, "page.module.scss");
    var layoutPath := ResolveTargetFile(t, appDir, LayoutCandidates(isTs));
    var pagePath := ResolveTargetFile(t, appDir, PageCandidates(isTs));
    t.Write(globalsPath, GlobalsTemplate);
    t.Write(modulePath, PageModuleTemplate());
    t.Write(layoutPath, LayoutTemplate(isTs));
    t.Write(pagePath, PageTemplate());
    Assets.DownloadAssets(t, answers.framework, projectDir, src);
  }
}
