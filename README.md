# SassWave CLI post-processing engine, modelled in Dafny

SassWave CLI (`sasswave-create`) scaffolds a Next.js or a Vite/React project with the
framework's own generator. It then turns the result into a SassWave starter:

- it installs `sass`;
- it strips the Tailwind files and dependencies of a Next.js app;
- it writes SCSS globals, a page or component module, and new layout, page and component files;
- it rewires a Vite entry to import `styles.scss`;
- it pulls the assets named in `assets-manifest.json`;
- it patches `index.html`;
- when asked, it installs three.js and wires a `<ThreeScene />` demo into the app.

This project models that engine as Dafny code over an in-memory project tree:

- `FileTree.Tree` is a class whose `files` map, from full path to content, the setup
  methods rewrite in place.
- Every setup step is a method. Its postcondition ties the new tree to a function of the old tree.
- The properties that the source and its design promise are proved about those
  functions as lemmas. Examples:
  - idempotent insertion of the scene;
  - the project-root guard of the asset fetcher;
  - the five-redirect bound;
  - the Tailwind pruning rule;
  - the leftmost, case-insensitive favicon and title rewrite.

Modules, one per file:

- `Wrappers`: `Option`/`Result`.
- `Text`: the string predicates, with `includes`, `startsWith` and `indexOf`.
- `Paths`: `path.join`, `path.resolve`, `path.basename`.
- `FileTree`: the tree and the first-existing-candidate rule.
- `Config`: the prompt answers and the external command.
- `JsonValue`: JSON values and JavaScript truthiness.
- `Assets`: `src/lib/assets.js`.
- `ScssEntry`: `src/lib/scssEntry.js`.
- `ReactThree`: `src/lib/reactThree.js`.
- `NextTemplates` and `NextSetup`: `src/lib/nextSetup.js`.
- `IndexHtml` and `ReactSetup`: `src/lib/reactSetup.js`.
- `Scaffold`: `src/scaffold.js`.
- `PostInstall`: `src/postInstall.js`.

External processes (`execa`) are a parameter `succeeding: Exec`. This is the set of commands
that succeed when run. A command is a program, its arguments and its working directory.
Methods that run commands return the list of commands they ran.

The following are also parameters:

- the JSON parser and serializer;
- the URL pathname parser;
- the manifest file's text;
- the HTTP responses each download receives.

Templates are kept verbatim as string constants. A few are assembled from named pieces:
the scene component's first import line and the rest, the layout's type imports, and the
pieces of the Vite entry. Constants whose first character matters (the scene component,
the layout's imports) begin with a separate `"import "` piece, so that their opening is
proved without indexing into a long literal. The others are split at the substrings the
engine later searches for (`.page`, `<footer`, `"use client";`, the globals import,
`export const metadata`), so that those occurrences are proved rather than assumed.

Where the code and its description disagree, the model follows the code:

- **Redirect error URL.** The too-many-redirects error names the URL that answered with the
  sixth redirect, not the URL the entry asked for (`Assets.SixthRedirectFails`).
- **Project-root guard.** The guard is a plain string-prefix test. It admits a sibling
  directory whose name extends the project's (`Assets.GuardAdmitsSibling`).
- **Page file order.** The Next.js page file is looked up in the order `page.js`, `page.jsx`
  by `nextSetup.js`, but `page.jsx`, `page.js` by `reactThree.js`. With both present, the
  two steps edit different files (`NextSetup.PageOrderDisagrees`).
- **Directive without a newline.** `insertImport` on a file whose `"use client";` directive
  has no newline after it puts the import before the directive, since `indexOf` returns
  -1 (`ReactThree.DirectiveWithoutNewline`).

## Model

| member | source | states |
|---|---|---|
| FileTree.Tree.ExistsPath | src/scaffold.js:13 | `fs.pathExists` on the project directory: true exactly when the path is a file or a directory holding a file |
| FileTree.Tree.Exists | src/lib/nextSetup.js:36 | `fs.pathExists` on a file path of the resolvers: true exactly when the file is in the tree |
| FileTree.Tree.Read | src/lib/reactThree.js:104 | `readFile` returns the stored content of an existing file |
| FileTree.Tree.Write | src/lib/nextSetup.js:413-416 | `outputFile`/`writeFile` sets that one path's content and changes nothing else |
| FileTree.Tree.Remove | src/lib/nextSetup.js:371 | `fs.remove` drops that one path; removing a missing path changes nothing |
| FileTree.FirstExistingIndex | src/lib/reactThree.js:71-77 | the chosen candidate exists, every earlier one does not, and none is chosen only when no candidate exists |
| FileTree.FirstExistingAt | src/lib/reactThree.js:72-75 | a candidate that exists, with none existing before it, is the one resolved |
| FileTree.FirstExistingAgrees | src/lib/reactThree.js:71-77 | resolution depends only on which candidates exist, so two trees that agree on them resolve alike |
| FileTree.Without | src/lib/reactSetup.js:297-305 | exactly the named files under the directory are gone; every other file is kept with its content |
| FileTree.TargetFileIsCandidate | src/lib/nextSetup.js:33-39 | the first-existing-or-first-candidate rule always yields one of the candidates joined to the base directory |
| Assets.RequestClient | src/lib/assets.js:10-12 | the HTTPS client is chosen exactly for URLs starting with `https` |
| Assets.DownloadFile | src/lib/assets.js:14-44 | a save follows only redirects (3xx with a location) then a 200 whose body is written, with at most five redirects; too many redirects means six redirects in a row; a bad status is a non-redirect, non-200 response received |
| Assets.RedirectsThenOk | src/lib/assets.js:21-39 | any run of at most five redirects (counting those already followed) ending in a 200 is saved with that 200's body and the count raised by the redirects followed |
| Assets.RedirectsThenFailure | src/lib/assets.js:21-34 | the same run ending in a response that is neither a followed redirect nor a 200 fails with that status, naming the URL of the request that received it |
| Assets.RedirectsThenRequestError | src/lib/assets.js:20-42 | the same run ending in a request error, or with no further response, fails naming the URL of the request that did not complete |
| Assets.SixthRedirectFails | src/lib/assets.js:22-24 | a sixth consecutive redirect fails, naming the URL that sent it (the fifth redirect's target) |
| Assets.RedirectWithoutLocationFails | src/lib/assets.js:21-33 | a 3xx without a `location` header is reported as a failed status, not followed |
| Assets.LoadAssetManifest | src/lib/assets.js:46-60 | entries are the items of a parsed array root; a missing file, unparsable text or non-array root yields no entries |
| Assets.Applies | src/lib/assets.js:72-77 | an applicable entry has a truthy `url`; given one, a `frameworks` array decides by membership of the chosen framework; without such an array a truthy `framework` applies exactly when it equals the chosen one; with neither the entry applies |
| Assets.Applicable | src/lib/assets.js:72-77 | exactly the manifest entries that pass the filter (url, then `frameworks` array, then `framework`), none added |
| Assets.ApplicableSingle | src/lib/assets.js:72 | a single entry is kept exactly when it applies |
| Assets.ApplicableAppend | src/lib/assets.js:72 | the filter of a concatenation is the concatenation of the filters, so order and repeated entries are kept |
| Assets.Destination | src/lib/assets.js:86-90 | a truthy `dest` is used as given (a non-string one fails); otherwise the result is `public/` followed by the basename of the URL's pathname, or `public/asset` when that basename is empty, and it fails exactly when the url or its pathname is unusable |
| Paths.Basename | src/lib/assets.js:89 | `path.basename`: with trailing slashes removed (leaving none), the result is the whole last piece: it holds no `/`, ends the path, and is either all of it or preceded by a `/` |
| Paths.Resolve | src/lib/assets.js:91 | `path.resolve` of the project directory and a destination always yields an absolute path |
| Paths.ResolvePlain | src/lib/assets.js:91 | for a directory in normal form and a relative path of plain pieces (no empty, `.` or `..` piece) the result is the directory, a `/` and the relative path |
| Paths.ParentResolvesAlike | src/lib/assets.js:89-91 | `<name>/..` resolves to the same target as `.`, which is what `path.join` makes of it |
| Paths.CurrentResolvesAlike | src/lib/assets.js:89-91 | `<name>/.` resolves to the same target as `<name>` |
| Assets.InsideProject | src/lib/assets.js:92 | the guard admits every path that lies under the project directory |
| Assets.GuardAdmitsSibling | src/lib/assets.js:91-92 | the string-prefix guard lets `../<name><suffix>` from `/<parent>/<name>` through, though it lands outside the project |
| Assets.EntryOutcome | src/lib/assets.js:85-101 | a written file passes the project-root guard; a skipped one fails it; the lemmas below state which entries are written, where, and with what body |
| Assets.DestEntryWritten | src/lib/assets.js:86-98 | an entry whose `dest` is a relative path of plain pieces, under a project directory in normal form, is written at `<projectDir>/<dest>` with the body of the 200 reached after at most five followed redirects |
| Assets.DefaultEntryWritten | src/lib/assets.js:86-98 | an entry without `dest` whose URL path ends in a plain name is written at `<projectDir>/public/<name>` with that 200's body |
| Assets.ResolvedEntryWritten | src/lib/assets.js:91-98 | any destination made of plain pieces resolves under the project directory, passes the guard and receives the downloaded body |
| Assets.AssetFilesStayInside | src/lib/assets.js:84-102 | after any number of loop iterations no file is removed and every new or changed file passes the guard |
| Assets.DownloadsStayInside | src/lib/assets.js:65-103 | `downloadAssets` never removes a file and creates or changes only files that pass the project-root guard |
| Assets.NothingApplicableNoDownloads | src/lib/assets.js:66-82 | a manifest with no applicable entry leaves the tree unchanged |
| Assets.DownloadEntry | src/lib/assets.js:85-101 | one loop iteration writes the downloaded body to the resolved target exactly when the entry's outcome is a write, and otherwise leaves the tree as it was |
| Assets.DownloadEach | src/lib/assets.js:84-102 | after the loop over the applicable entries the tree is the entry-by-entry fold of their outcomes |
| Assets.DownloadAssets | src/lib/assets.js:65-103 | the loop's tree is the entry-by-entry fold, a failure or skip moving to the next entry |
| ScssEntry.BuildEntryTemplate | src/lib/scssEntry.js:8-27 | the entry starts with the React import and imports the App file of the right extension and `./styles.scss`, rendering `<App />` in strict mode |
| ScssEntry.ScssEntryEffect | src/lib/scssEntry.js:32-47 | `src/styles.scss` holds the content whether or not an entry exists; only the first existing entry is rewritten, importing the stylesheet; other files keep their content; no file is removed |
| ScssEntry.EnsureScssEntry | src/lib/scssEntry.js:32-47 | the loop's tree equals the entry rule above |
| ReactThree.BuildSceneTemplate | src/lib/reactThree.js:13-32 | the component carries a `use client` directive exactly when asked, and ends with the `ThreeScene` component |
| ReactThree.SceneStyles | src/lib/reactThree.js:34-51 | the appended styles define `.scene` |
| ReactThree.ThreeInstallCommand | src/lib/reactThree.js:53-68 | the install runs the package manager in the project with `install` for npm, `add` otherwise, followed by the three packages |
| ReactThree.ResolveInstallArgs | src/lib/reactThree.js:53-56 | one argument: `install` exactly for npm, `add` for every other manager |
| ReactThree.ImportPosition | src/lib/reactThree.js:82-84 | the insertion point is right after the first newline of a directive-led file, otherwise the start |
| ReactThree.InsertImport | src/lib/reactThree.js:79-88 | the result contains the import line; a file already containing it is unchanged; otherwise the line and a newline are spliced in at the insertion point, all else kept |
| ReactThree.InsertImportIdempotent | src/lib/reactThree.js:80 | inserting the import twice equals inserting it once |
| ReactThree.DirectiveWithoutNewline | src/lib/reactThree.js:83-84 | a directive-led file with no newline gets the import before the directive |
| ReactThree.SceneSectionHasTag | src/lib/reactThree.js:92-96 | the inserted section contains `<ThreeScene />` and so the marker the insertion tests for |
| ReactThree.InsertSceneSection | src/lib/reactThree.js:90-100 | the result holds `<ThreeScene`; a file already holding it is unchanged; the section goes right before the first `<footer`, or at the end without one |
| ReactThree.InsertSceneSectionIdempotent | src/lib/reactThree.js:91 | inserting the section twice equals inserting it once |
| ReactThree.InsertSceneSectionKeeps | src/lib/reactThree.js:97-99 | any text without `<` in the file survives the insertion |
| ReactThree.WithSceneStyles | src/lib/reactThree.js:102-109 | a module lacking `.scene` gets exactly a newline and the scene styles appended; a missing module or one already defining `.scene` is left alone; no file is added or removed and others are unchanged |
| ReactThree.SceneStylesAppended | src/lib/reactThree.js:106 | appending the scene styles keeps the old styles as a prefix and adds `.scene` |
| ReactThree.WithSceneStylesIdempotent | src/lib/reactThree.js:105 | ensuring the styles twice equals ensuring them once |
| ReactThree.EnsureStyles | src/lib/reactThree.js:102-109 | the method's tree equals the styles rule |
| ReactThree.ResolveExistingFile | src/lib/reactThree.js:71-77 | the loop returns the first existing candidate, and null when none exists |
| ReactThree.SceneWiringIdempotent | src/lib/reactThree.js:111-146 | wiring the scene into an entry a second time leaves the tree as the first time did |
| ReactThree.ReactSceneIdempotent | src/lib/reactThree.js:111-127 | running the React scene setup twice equals running it once |
| ReactThree.NextSceneIdempotent | src/lib/reactThree.js:129-146 | running the Next.js scene setup twice equals running it once |
| ReactThree.SetupReactScene | src/lib/reactThree.js:111-127 | the tree becomes the React scene wiring of the old tree |
| ReactThree.SetupNextScene | src/lib/reactThree.js:129-146 | the tree becomes the Next.js scene wiring of the old tree |
| ReactThree.RewriteEntryIdempotent | src/lib/reactThree.js:122-142 | rewriting an entry a second time (import, then section) leaves it as the first rewrite did |
| ReactThree.SetupScene | src/lib/reactThree.js:160-166 | the React wiring for React, the Next.js wiring for Next.js, and no change for another framework |
| ReactThree.SetupReactThree | src/lib/reactThree.js:151-170 | nothing happens without `want3d`; the install runs unless skipped; success exactly when it is skipped or succeeds; a failed install changes no file; otherwise the framework's scene is wired |
| NextTemplates.PageModuleTemplate | src/lib/nextSetup.js:114-283 | the page module defines `.page` |
| NextTemplates.LayoutTemplate | src/lib/nextSetup.js:285-321 | the layout exports `metadata`, imports `./globals.scss`, and has no `use client` directive |
| NextTemplates.PageTemplate | src/lib/nextSetup.js:323-365 | the page starts with `"use client";` and has a `<footer` for the scene to go before |
| NextSetup.ResolveTargetFile | src/lib/nextSetup.js:33-39 | the first existing candidate, else the first candidate; an existing result is one of the candidates |
| NextSetup.PageOrderDisagrees | src/lib/nextSetup.js:11-14 | with `page.js` and `page.jsx` both present this step picks `page.js` while the 3D step picks `page.jsx` |
| NextSetup.PruneSection | src/lib/nextSetup.js:385-392 | the section loses exactly its truthy Tailwind entries; the change flag is set exactly when there was one |
| NextSetup.PruneTailwindDeps | src/lib/nextSetup.js:380-393 | the pruned package is the pruning rule applied to the parsed package; `changed` holds exactly when a Tailwind dependency was present |
| NextSetup.PrunedChangesIff | src/lib/nextSetup.js:379-395 | pruning changes the package exactly when it has a truthy Tailwind dependency |
| NextSetup.PrunedPackageFacts | src/lib/nextSetup.js:380-393 | after pruning no Tailwind dependency is left; pruning is idempotent; top-level keys and other fields are kept; non-Tailwind entries of both sections are kept with their values |
| NextSetup.CleanedFilesFacts | src/lib/nextSetup.js:367-396 | every Tailwind artifact is gone; only artifacts are removed; other files are untouched; `package.json` is rewritten only when it parsed and held a Tailwind dependency |
| NextSetup.RemoveArtifactFiles | src/lib/nextSetup.js:368-374 | after the removal loop exactly the Tailwind artifact paths under the project are gone and every other file keeps its content |
| NextSetup.RemoveTailwindArtifacts | src/lib/nextSetup.js:367-396 | the method's tree and success equal the cleanup rule; an unparsable or null `package.json` fails after the artifacts are removed |
| NextSetup.EntryPathsDistinct | src/lib/nextSetup.js:406-410 | layout, page, globals and page module are four distinct files |
| NextSetup.EntryFilesFacts | src/lib/nextSetup.js:406-416 | after the rewrite the globals, page module, layout and page hold their templates, and no file is removed |
| NextSetup.GlobalsRemovedThenRewritten | src/lib/nextSetup.js:402-413 | `src/app/globals.scss` is first deleted as a Tailwind artifact, then rewritten with the SassWave globals |
| NextSetup.SetupNextProject | src/lib/nextSetup.js:401-419 | success is the cleanup's; the tree is cleanup, then entry rewrite, then asset download, with nothing after a failed cleanup |
| IndexHtml.Folded | src/lib/reactSetup.js:312-313 | the `/i` flag: case folding keeps the length and lowers each character |
| IndexHtml.FaviconMatchAt | src/lib/reactSetup.js:312 | a favicon match starts with `<link`, ends at the first `>` after it, and is at least 16 characters |
| IndexHtml.FaviconMatchesAtFirstClose | src/lib/reactSetup.js:312 | `<link`, then `rel="icon"` (either quote, any case) at least one character in and before the first `>`, matches up to and including that `>` |
| IndexHtml.FaviconNeedsRelIcon | src/lib/reactSetup.js:312 | conversely, a `<link` with no `rel="icon"` before its first `>`, or with no `>` at all, is not a match |
| IndexHtml.TitleMatchAt | src/lib/reactSetup.js:313 | a title match opens with `<title>` and closes with the first `</title>` |
| IndexHtml.Leftmost | src/lib/reactSetup.js:315-321 | `replace` picks the leftmost match: it matches, no earlier start does, and none is found only when no start matches |
| IndexHtml.LeftmostIs | src/lib/reactSetup.js:315-321 | a match with none before it is the one found |
| IndexHtml.ReplaceFavicon | src/lib/reactSetup.js:315-317 | the result holds the SassWave favicon link unless the page is unchanged, and a page without a favicon link is unchanged |
| IndexHtml.ReplaceTitle | src/lib/reactSetup.js:319-321 | the result holds the SassWave title unless the page is unchanged, and a page without a title element is unchanged |
| IndexHtml.TweakedHtml | src/lib/reactSetup.js:311-323 | the title step runs on the favicon step's output and leaves it or adds the SassWave title; a page with neither match is unchanged |
| IndexHtml.FaviconReplaced | src/lib/reactSetup.js:315-317 | the leftmost favicon link is replaced by the SassWave one, all else kept |
| IndexHtml.TitleReplaced | src/lib/reactSetup.js:319-321 | the leftmost title element is replaced by `<title>SassWave UI</title>`, all else kept |
| IndexHtml.UpperCaseTitleMatches | src/lib/reactSetup.js:313 | `<TITLE>x</TITLE>` matches despite its case |
| IndexHtml.TitleMatchCaseInsensitive | src/lib/reactSetup.js:313 | the `/i` flag: texts that fold to the same text have the same title match at every position |
| IndexHtml.FaviconMatchCaseInsensitive | src/lib/reactSetup.js:312 | the `/i` flag: texts that fold to the same text have the same favicon match at every position |
| IndexHtml.TitleStopsAtLineBreak | src/lib/reactSetup.js:313 | `.` does not match a line terminator: a line break before the first `</title>` after `<title>` means no match there |
| IndexHtml.TitleMatchesOnOneLine | src/lib/reactSetup.js:313 | conversely, `<title>` followed by the first `</title>` with no line terminator between matches up to that closing tag |
| IndexHtml.MultiLineTitleIgnored | src/lib/reactSetup.js:313 | `.` does not cross a line break, so a title split over two lines is left alone |
| ReactSetup.AppModuleTemplate | src/lib/reactSetup.js:82-251 | the component module defines `.page` |
| ReactSetup.AppComponentTemplate | src/lib/reactSetup.js:253-295 | the component opens with its module import and has a `<footer` |
| ReactSetup.ResolveAppPath | src/lib/reactSetup.js:15-22 | the first existing App candidate, else the first |
| ReactSetup.RemoveDefaultCss | src/lib/reactSetup.js:297-305 | exactly the four default files are gone; every other file is kept |
| ReactSetup.TweakIndexHtml | src/lib/reactSetup.js:307-325 | an existing `index.html` gets the favicon rewrite then the title rewrite; otherwise nothing changes |
| ReactSetup.SetupReactProject | src/lib/reactSetup.js:330-347 | nothing changes unless the framework is React; otherwise the tree is defaults removed, templates written, entry rewired, assets downloaded and `index.html` patched, in that order |
| ReactSetup.ReactPathsDistinct | src/lib/reactSetup.js:336-343 | no written file is a default one, and component, module, stylesheet and entry are distinct |
| ReactSetup.ReactEntryRemovesDefaults | src/lib/reactSetup.js:338-342 | before the assets arrive none of the default files is left |
| ReactSetup.ReactEntryWrites | src/lib/reactSetup.js:334-342 | before the assets arrive the component holds its template and opens with the module import, the module defines `.page`, and `src/styles.scss` holds the globals |
| Scaffold.NextCommand | src/scaffold.js:21-43 | the runner is `bun`, `npx` for npm, or the package manager itself; the arguments are the runner's lead, the project name, the language flag, then exactly `--eslint --tailwind false --src-dir true --app true --import-alias @/* --react-compiler true` |
| Scaffold.ViteCommand | src/scaffold.js:44-61 | `create-vite@latest` with name and template, `--no-rolldown` for TypeScript, `--no-interactive` last, run through `bun x` or `npx` |
| Scaffold.ScaffoldProject | src/scaffold.js:10-67 | an existing target directory or an unknown framework fails before any command; otherwise exactly the framework's generator runs and the result is the resolved project directory or that command's failure |
| PostInstall.SassInstallArgs | src/postInstall.js:11-16 | `install --save-dev` for npm, `add --dev` for yarn, `add -D` otherwise, then `sass` |
| PostInstall.InstallVerbsAgree | src/postInstall.js:11-12 | the sass install and the three.js install use the same program and verb |
| PostInstall.AddSassAndThree | src/postInstall.js:8-40 | a failed sass install stops everything with no file changed; otherwise the framework step runs (its failure is swallowed) and then the 3D step, the commands run are sass and then the 3D install unless skipped, and success is sass and the 3D install succeeding |
| PostInstall.RunFrameworkSetup | src/postInstall.js:23-37 | only the chosen framework's post-processor runs, and the tree becomes that framework's result; another framework changes nothing |
| PostInstall.AfterSass | src/postInstall.js:23-39 | after sass, the framework step then the 3D step; the phases started, the 3D install command and success are those of the 3D step |
| PostInstall.InitGit | src/postInstall.js:42-51 | `git init` runs in the project exactly when git was chosen, and its failure is ignored |

## Left out

- Logging (`src/lib/logger.js`) and every `log(...)` call. They only print.
- Interactive prompts (`src/prompts.js`) and the entry script `bin/sasswave-create.js`
  (`run`, `ensureBunInstalled`, `startDevServerIfNeeded`). They are not part of this model.
- What the framework generators write. `Scaffold.ScaffoldProject` only decides which command
  runs. The files `create-next-app` or `create-vite` produce are whatever tree the later
  steps are given.
- The contents of the packages installed by `sass` and three.js installs. Only the commands
  and their success are modelled.
- Directories are not stored. `fs.ensureDir` is a no-op, and a directory exists when a file
  lies below it (`FileTree.PathExists`). The candidate resolvers use file membership, so a
  directory named like a candidate file is not modelled.
- File-system errors (permissions, a full disk) and stream errors while writing a download are
  not modelled. So the scene-wiring `catch` of `setupReactThree` and the `catch` around
  `setupReactProject` never fire in the model. The catch around `setupNextProject` fires
  only for an unparsable or `null` `package.json`.
- Concurrency and the interleaving of `async` steps. Every step is modelled as running to
  completion in program order.
- The network. Each download sees a given sequence of responses. Running out of them is a
  request error. `Assets.DownloadFile` does not model the partial file a failed stream may
  leave.
- Assets.Destination: `path.join('public', name)` is written as `public/` followed by the name. The two strings
  differ for a name `..` (`path.join` gives `.`) or `.` (it gives `public`), which a non-hierarchical URL
  such as `foo:..` can produce. `path.resolve` maps both forms to the same target
  (`Paths.ParentResolvesAlike`, `Paths.CurrentResolvesAlike`), so the file written is the same; only the
  text of the skip message would differ, and messages are not modelled.
- `JSON.parse`, `JSON.stringify`, `new URL(...).pathname` and the manifest file's location
  are parameters, not modelled.
- `CI_SKIP_THREE_INSTALL` is the `skipInstall` parameter of `ReactThree.SetupReactThree`.
- Case folding: the `/i` flag is modelled as ASCII case folding (`IndexHtml.Folded`). Without
  the `u` flag, JavaScript never folds a non-ASCII character onto an ASCII one, so this is
  exact for these all-ASCII patterns.
- The template bodies are kept verbatim, but their rendering (CSS, JSX) is not interpreted.
  Only the substrings later steps depend on are proved present.
