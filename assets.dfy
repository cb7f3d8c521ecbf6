/** The asset fetcher of `src/lib/assets.js`: manifest loading, the applicability filter,
    the default destination, the project-root guard and the bounded redirect rule, with
    the network replaced by abstract HTTP responses. */
module Assets {
  import opened Wrappers
  import opened Text
  import opened Paths
  import opened FileTree
  import opened JsonValue

  /** The filter of `downloadAssets`: an entry needs a `url`; a `frameworks` array decides
      alone; otherwise a truthy `framework` must equal the chosen one; otherwise it applies. */
  predicate Applies(entry: Json, framework: string)
    ensures Applies(entry, framework) ==> TruthyField(entry, "url")
    ensures (TruthyField(entry, "url") && Field(entry, "frameworks").None? && !TruthyField(entry, "framework")) ==>
      Applies(entry, framework)
    ensures (TruthyField(entry, "framework") && Field(entry, "framework").value != JString(framework) &&
             !(Field(entry, "frameworks").Some? && Field(entry, "frameworks").value.JArray?)) ==>
      !Applies(entry, framework)
    ensures (TruthyField(entry, "url") && Field(entry, "frameworks").Some? && Field(entry, "frameworks").value.JArray?) ==>
      (Applies(entry, framework) <==> JString(framework) in Field(entry, "frameworks").value.items)
    ensures (TruthyField(entry, "url") && TruthyField(entry, "framework") &&
             !(Field(entry, "frameworks").Some? && Field(entry, "frameworks").value.JArray?)) ==>
      (Applies(entry, framework) <==> Field(entry, "framework").value == JString(framework))
  {
    if !Truthy(entry) || !TruthyField(entry, "url") then false
    else if Field(entry, "frameworks").Some? && Field(entry, "frameworks").value.JArray? then
      JString(framework) in Field(entry, "frameworks").value.items
    else if TruthyField(entry, "framework") then
      Field(entry, "framework").value == JString(framework)
    else true
  }

  /** `entries.filter(...)`: the applicable entries, in manifest order. */
  function Applicable(entries: seq<Json>, framework: string): (r: seq<Json>)
    ensures |r| <= |entries|
    ensures forall e :: e in r <==> e in entries && Applies(e, framework)
    ensures (forall e :: e in entries ==> !Applies(e, framework)) ==> r == []
  {
    if entries == [] then []
    else
      var rest := Applicable(entries[1..], framework);
      assert forall e :: e in entries <==> e == entries[0] || e in entries[1..];
      if Applies(entries[0], framework) then [entries[0]] + rest else rest
  }

  /** One entry is kept exactly when it applies. */
  lemma ApplicableSingle(entry: Json, framework: string)
    ensures Applicable([entry], framework) == if Applies(entry, framework) then [entry] else []
  {
    assert [entry][1..] == [];
  }

  /** The filter works entry by entry: it keeps the manifest's order and every copy of a
      repeated entry. */
  lemma {:induction false} ApplicableAppend(a: seq<Json>, b: seq<Json>, framework: string)
    ensures Applicable(a + b, framework) == Applicable(a, framework) + Applicable(b, framework)
  {
    if a == [] {
      assert a + b == b;
    } else {
      assert (a + b)[0] == a[0];
      assert (a + b)[1..] == a[1..] + b;
      ApplicableAppend(a[1..], b, framework);
    }
  }

  /** `loadAssetManifest`: a missing file, text that does not parse, or a root that is not
      an array all give the empty list; nothing is thrown. */
  function LoadAssetManifest(raw: Option<string>, parseJson: string -> Option<Json>): (r: seq<Json>)
    ensures r != [] ==> raw.Some? && parseJson(raw.value) == Some(JArray(r))
    ensures raw.Some? && parseJson(raw.value).Some? && parseJson(raw.value).value.JArray? ==>
              r == parseJson(raw.value).value.items
  {
    match raw
    case None => []
    case Some(text) =>
      match parseJson(text)
      case Some(JArray(items)) => items
      case _ => []
  }

  datatype Client = Http | Https

  /** `requestClient`: the HTTPS client exactly for URLs that start with `https`. */
  function RequestClient(url: string): (c: Client)
    ensures c == Https <==> StartsWith(url, "https")
  {
    if StartsWith(url, "https") then Https else Http
  }

  const MaxRedirects: nat := 5

  /** What one HTTP request yields: a response, or a request error (`req.on('error')`). */
  datatype Response = Response(status: int, location: string, body: string) | RequestError

  /** A 3xx response with a (non-empty) `location` header. */
  predicate IsRedirect(r: Response) {
    r.Response? && 300 <= r.status < 400 && r.location != ""
  }

  predicate IsOk(r: Response) {
    r.Response? && r.status == 200
  }

  /** A response that rejects the download: neither a followed redirect nor a 200. */
  predicate IsFailure(r: Response, status: int) {
    r.Response? && !IsRedirect(r) && r.status == status && status != 200
  }

  function Location(r: Response): string {
    if r.Response? then r.location else ""
  }

  datatype Download =
    | Saved(body: string, redirects: nat)
    | TooManyRedirects(url: string)
    | BadStatus(url: string, status: int)
    | RequestFailed(url: string)

  /** `downloadFile(url, destination, redirectCount)` over the responses its successive
      requests receive; running out of responses is a request error. Only a `Saved`
      result opens the destination for writing. */
  function DownloadFile(url: string, responses: seq<Response>, redirectCount: nat): (r: Download)
    requires redirectCount <= MaxRedirects
    decreases |responses|
    ensures r.Saved? ==> redirectCount <= r.redirects <= MaxRedirects
    ensures r.Saved? ==> var k := r.redirects - redirectCount;
      k < |responses| && IsOk(responses[k]) && responses[k].body == r.body &&
      forall i :: 0 <= i < k ==> IsRedirect(responses[i])
    ensures r.TooManyRedirects? ==>
      (|responses| > MaxRedirects - redirectCount &&
       forall i :: 0 <= i <= MaxRedirects - redirectCount ==> IsRedirect(responses[i]))
    ensures r.BadStatus? ==>
      (exists i :: 0 <= i < |responses| && IsFailure(responses[i], r.status))
  {
    if responses == [] then RequestFailed(url)
    else
      var res := responses[0];
      if res.RequestError? then RequestFailed(url)
      else if IsRedirect(res) then
        if redirectCount >= MaxRedirects then TooManyRedirects(url)
        else
          var r := DownloadFile(res.location, responses[1..], redirectCount + 1);
          assert r.BadStatus? ==> (exists i :: 1 <= i < |responses| && IsFailure(responses[i], r.status)) by {
            if r.BadStatus? {
              var i :| 0 <= i < |responses[1..]| && IsFailure(responses[1..][i], r.status);
              assert responses[i + 1] == responses[1..][i];
            }
          }
          r
      else if res.status != 200 then BadStatus(url, res.status)
      else Saved(res.body, redirectCount)
  }

  /** The URL that the request answered by `responses[k]` went to: the entry's URL, then
      each followed redirect's target. */
  function RequestUrl(url: string, responses: seq<Response>, k: nat): string
    requires k <= |responses|
  {
    if k == 0 then url else Location(responses[k - 1])
  }

  /** Shifting the chain by one followed redirect shifts the request URLs with it. */
  lemma RequestUrlShift(url: string, responses: seq<Response>, k: nat)
    requires 0 < k <= |responses|
    ensures RequestUrl(Location(responses[0]), responses[1..], k - 1) == RequestUrl(url, responses, k)
  {
    if k > 1 {
      assert responses[1..][k - 2] == responses[k - 1];
    }
  }

  /** Up to five redirects and then a 200 are saved, with the body of the 200 and the
      redirect count raised by the redirects followed. */
  lemma {:induction false} RedirectsThenOk(url: string, responses: seq<Response>, redirectCount: nat, k: nat)
    requires redirectCount + k <= MaxRedirects && k < |responses|
    requires forall i :: 0 <= i < k ==> IsRedirect(responses[i])
    requires IsOk(responses[k])
    ensures DownloadFile(url, responses, redirectCount) == Saved(responses[k].body, redirectCount + k)
    decreases k
  {
    if k > 0 {
      assert IsRedirect(responses[0]);
      assert forall i :: 0 <= i < k - 1 ==> responses[1..][i] == responses[i + 1];
      RedirectsThenOk(responses[0].location, responses[1..], redirectCount + 1, k - 1);
    }
  }

  /** Up to five redirects and then a response that is neither a redirect nor a 200 fail
      with that response's status, naming the URL of the request that received it. */
  lemma {:induction false} RedirectsThenFailure(url: string, responses: seq<Response>, redirectCount: nat, k: nat, status: int)
    requires redirectCount + k <= MaxRedirects && k < |responses|
    requires forall i :: 0 <= i < k ==> IsRedirect(responses[i])
    requires IsFailure(responses[k], status)
    ensures DownloadFile(url, responses, redirectCount) == BadStatus(RequestUrl(url, responses, k), status)
    decreases k
  {
    if k > 0 {
      assert IsRedirect(responses[0]);
      assert forall i :: 0 <= i < k - 1 ==> responses[1..][i] == responses[i + 1];
      RedirectsThenFailure(responses[0].location, responses[1..], redirectCount + 1, k - 1, status);
      RequestUrlShift(url, responses, k);
    }
  }

  /** Up to five redirects and then a request error, or no further response, fail the
      download naming the URL of the request that did not complete. */
  lemma {:induction false} RedirectsThenRequestError(url: string, responses: seq<Response>, redirectCount: nat, k: nat)
    requires redirectCount + k <= MaxRedirects && k <= |responses|
    requires forall i :: 0 <= i < k ==> IsRedirect(responses[i])
    requires k == |responses| || responses[k].RequestError?
    ensures DownloadFile(url, responses, redirectCount) == RequestFailed(RequestUrl(url, responses, k))
    decreases k
  {
    if k > 0 {
      assert IsRedirect(responses[0]);
      assert forall i :: 0 <= i < k - 1 ==> responses[1..][i] == responses[i + 1];
      RedirectsThenRequestError(responses[0].location, responses[1..], redirectCount + 1, k - 1);
      RequestUrlShift(url, responses, k);
    }
  }

  /** A sixth redirect fails the download; the error names the URL that answered with it,
      which is the fifth redirect's target, not the entry's URL. */
  lemma {:induction false} SixthRedirectFails(url: string, responses: seq<Response>, redirectCount: nat)
    requires redirectCount <= MaxRedirects
    requires |responses| > MaxRedirects - redirectCount
    requires forall i :: 0 <= i <= MaxRedirects - redirectCount ==> IsRedirect(responses[i])
    ensures DownloadFile(url, responses, redirectCount) ==
      TooManyRedirects(RequestUrl(url, responses, MaxRedirects - redirectCount))
    decreases MaxRedirects - redirectCount
  {
    if redirectCount < MaxRedirects {
      assert IsRedirect(responses[0]);
      SixthRedirectFails(responses[0].location, responses[1..], redirectCount + 1);
      RequestUrlShift(url, responses, MaxRedirects - redirectCount);
    }
  }

  /** A 3xx response without a `location` header is a failure, not a redirect. */
  lemma RedirectWithoutLocationFails(url: string, status: int, body: string, rest: seq<Response>, redirectCount: nat)
    requires redirectCount <= MaxRedirects && 300 <= status < 400
    ensures DownloadFile(url, [Response(status, "", body)] + rest, redirectCount) == BadStatus(url, status)
  {
  }

  datatype AssetError = InvalidDest | InvalidUrl

  /** The `url` of an entry when it is a string (other values make `new URL` and the
      download throw). */
  function UrlText(entry: Json): Option<string> {
    match Field(entry, "url")
    case Some(JString(u)) => Some(u)
    case _ => None
  }

  /** The relative destination: a truthy `dest` as given, else `public/<basename of the URL
      path>`, with `asset` for an empty basename. `urlPath` stands for `new URL(u).pathname`. */
  function Destination(entry: Json, urlPath: string -> Option<string>): (r: Result<string, AssetError>)
    ensures TruthyField(entry, "dest") ==>
      r == (if Field(entry, "dest").value.JString? then Ok(Field(entry, "dest").value.s) else Err(InvalidDest))
    ensures !TruthyField(entry, "dest") && r.Ok? ==>
      StartsWith(r.value, "public/") && |r.value| > 7 && '/' !in r.value[7..]
    ensures !TruthyField(entry, "dest") ==> (r.Ok? <==> UrlText(entry).Some? && urlPath(UrlText(entry).value).Some?)
    ensures !TruthyField(entry, "dest") && UrlText(entry).Some? && urlPath(UrlText(entry).value).Some? ==>
      r == Ok("public/" + (var b := Basename(urlPath(UrlText(entry).value).value); if b == "" then "asset" else b))
  {
    if TruthyField(entry, "dest") then
      var dest := Field(entry, "dest").value;
      if dest.JString? then Ok(dest.s) else Err(InvalidDest)
    else
      match UrlText(entry)
      case None => Err(InvalidUrl)
      case Some(u) =>
        match urlPath(u)
        case None => Err(InvalidUrl)
        case Some(pathname) =>
          var base := Basename(pathname);
          var name := if base == "" then "asset" else base;
          assert ("public/" + name)[7..] == name;
          Ok("public/" + name)
  }

  /** The project-root guard: the resolved target must start with the project directory
      as a string. */
  predicate InsideProject(target: string, projectDir: string)
    ensures StartsWith(target, projectDir + "/") ==> InsideProject(target, projectDir)
  {
    assert StartsWith(target, projectDir + "/") ==> target[..|projectDir|] == (projectDir + "/")[..|projectDir|];
    StartsWith(target, projectDir)
  }

  /** The guard is a string prefix test: a destination that climbs into a sibling
      directory whose name extends the project's passes it. */
  lemma GuardAdmitsSibling(parent: string, name: string, suffix: string)
    requires PlainName(parent) && PlainName(name) && PlainName(name + suffix) && suffix != ""
    ensures var dir := "/" + parent + "/" + name;
            var target := Resolve(dir, "../" + name + suffix);
            target == "/" + parent + "/" + name + suffix &&
            InsideProject(target, dir) && !StartsWith(target, dir + "/")
  {
    var dir := "/" + parent + "/" + name;
    var n2 := name + suffix;
    assert "../" + name + suffix == "../" + n2;
    assert ("../" + n2)[0] == '.';
    assert !StartsWith("../" + n2, "/");
    assert dir + "/" + ("../" + n2) == "/" + parent + "/" + name + "/" + "../" + n2;
    SiblingSegments(parent, name, n2);
    SiblingCollapse(parent, name, n2);
    assert JoinAbsolute([n2]) == "/" + n2 + "";
    assert [parent, n2][1..] == [n2];
    assert JoinAbsolute([parent, n2]) == "/" + parent + "/" + n2;
    var target := "/" + parent + "/" + name + suffix;
    assert target[..|dir|] == dir;
    assert |target| > |dir| && target[|dir|] == suffix[0];
    assert suffix[0] in n2;
  }

  lemma SiblingSegments(parent: string, name: string, n2: string)
    requires PlainName(parent) && PlainName(name) && PlainName(n2)
    ensures Segments("/" + parent + "/" + name + "/" + "../" + n2) == ["", parent, name, "..", n2]
  {
    var p := "/" + parent + "/" + name + "/" + "../" + n2;
    assert p == "" + "/" + (parent + "/" + (name + "/" + (".." + "/" + n2)));
    SegmentsPlain(n2);
    SegmentsPlain("..");
    SegmentsSplit("..", n2);
    SegmentsPlain(name);
    SegmentsSplit(name, ".." + "/" + n2);
    SegmentsPlain(parent);
    SegmentsSplit(parent, name + "/" + (".." + "/" + n2));
    SegmentsSplit("", parent + "/" + (name + "/" + (".." + "/" + n2)));
  }

  lemma SiblingCollapse(parent: string, name: string, n2: string)
    requires PlainName(parent) && PlainName(name) && PlainName(n2)
    ensures Collapse([], ["", parent, name, "..", n2]) == [parent, n2]
  {
    var pieces := ["", parent, name, "..", n2];
    assert Collapse([], pieces) == Collapse([], pieces[1..]);
    assert pieces[1..][0] == parent && pieces[1..][1..] == pieces[2..] && [] + [parent] == [parent];
    assert Collapse([], pieces[1..]) == Collapse([parent], pieces[2..]);
    assert pieces[2..][0] == name && pieces[2..][1..] == pieces[3..] && [parent] + [name] == [parent, name];
    assert Collapse([parent], pieces[2..]) == Collapse([parent, name], pieces[3..]);
    assert pieces[3..][0] == ".." && pieces[3..][1..] == pieces[4..] && [parent, name][..1] == [parent];
    assert Collapse([parent, name], pieces[3..]) == Collapse([parent], pieces[4..]);
    assert pieces[4..][0] == n2 && pieces[4..][1..] == [] && [parent] + [n2] == [parent, n2];
    assert Collapse([parent], pieces[4..]) == Collapse([parent, n2], []);
  }

  /** Everything the fetcher reads from outside: the manifest file's text (if present),
      a JSON parser, a URL-pathname parser, and the responses the i-th applicable
      entry's requests receive. */
  datatype AssetSource = AssetSource(
    manifest: Option<string>,
    parseJson: string -> Option<Json>,
    urlPath: string -> Option<string>,
    transfers: seq<seq<Response>>)

  function Transfer(src: AssetSource, i: nat): seq<Response> {
    if i < |src.transfers| then src.transfers[i] else []
  }

  datatype EntryResult = Failed | Skipped(target: string) | Written(target: string, body: string)

  /** One iteration of the download loop, its errors caught. */
  function EntryOutcome(entry: Json, i: nat, projectDir: string, src: AssetSource): (r: EntryResult)
    ensures r.Written? ==> InsideProject(r.target, projectDir)
    ensures r.Skipped? ==> !InsideProject(r.target, projectDir)
  {
    match Destination(entry, src.urlPath)
    case Err(_) => Failed
    case Ok(rel) =>
      var target := Resolve(projectDir, rel);
      if !InsideProject(target, projectDir) then Skipped(target)
      else
        match UrlText(entry)
        case None => Failed
        case Some(url) =>
          match DownloadFile(url, Transfer(src, i), 0)
          case Saved(body, _) => Written(target, body)
          case _ => Failed
  }

  /** An entry whose destination is a relative path of plain pieces, with a project
      directory in normal form, is written at the project directory joined with that
      destination, with the body of the 200 that ends its transfer after at most five
      followed redirects. */
  lemma ResolvedEntryWritten(entry: Json, i: nat, projectDir: string, src: AssetSource,
                             ds: seq<string>, rs: seq<string>, dest: string, url: string, k: nat)
    requires PlainPieces(ds) && PlainPieces(rs) && rs != []
    requires projectDir == JoinAbsolute(ds) && "/" + dest == JoinAbsolute(rs)
    requires Destination(entry, src.urlPath) == Ok(dest) && UrlText(entry) == Some(url)
    requires k <= MaxRedirects && k < |Transfer(src, i)|
    requires forall j :: 0 <= j < k ==> IsRedirect(Transfer(src, i)[j])
    requires IsOk(Transfer(src, i)[k])
    ensures EntryOutcome(entry, i, projectDir, src) == Written(projectDir + "/" + dest, Transfer(src, i)[k].body)
  {
    ResolvePlain(ds, rs, projectDir, dest);
    assert InsideProject(projectDir + "/" + dest, projectDir) by {
      assert (projectDir + "/" + dest)[..|projectDir + "/"|] == projectDir + "/";
    }
    RedirectsThenOk(url, Transfer(src, i), 0, k);
  }

  /** An entry with such a `dest` is written at `projectDir/dest`. */
  lemma DestEntryWritten(entry: Json, i: nat, projectDir: string, src: AssetSource,
                         ds: seq<string>, rs: seq<string>, dest: string, url: string, k: nat)
    requires PlainPieces(ds) && PlainPieces(rs) && rs != []
    requires projectDir == JoinAbsolute(ds) && "/" + dest == JoinAbsolute(rs)
    requires Field(entry, "dest") == Some(JString(dest)) && Field(entry, "url") == Some(JString(url))
    requires k <= MaxRedirects && k < |Transfer(src, i)|
    requires forall j :: 0 <= j < k ==> IsRedirect(Transfer(src, i)[j])
    requires IsOk(Transfer(src, i)[k])
    ensures EntryOutcome(entry, i, projectDir, src) == Written(projectDir + "/" + dest, Transfer(src, i)[k].body)
  {
    assert dest != "" by {
      assert JoinAbsolute(rs) == "/" + rs[0] + JoinAbsolute(rs[1..]);
      assert |"/" + dest| >= 1 + |rs[0]| > 1;
    }
    assert Destination(entry, src.urlPath) == Ok(dest);
    ResolvedEntryWritten(entry, i, projectDir, src, ds, rs, dest, url, k);
  }

  /** An entry without `dest` whose URL path ends in a plain name is written under
      `public/` with that name, with the body of the 200 that ends its transfer. */
  lemma DefaultEntryWritten(entry: Json, i: nat, projectDir: string, src: AssetSource,
                            ds: seq<string>, url: string, pathname: string, k: nat)
    requires PlainPieces(ds) && projectDir == JoinAbsolute(ds)
    requires !TruthyField(entry, "dest") && Field(entry, "url") == Some(JString(url))
    requires src.urlPath(url) == Some(pathname) && PlainName(Basename(pathname))
    requires k <= MaxRedirects && k < |Transfer(src, i)|
    requires forall j :: 0 <= j < k ==> IsRedirect(Transfer(src, i)[j])
    requires IsOk(Transfer(src, i)[k])
    ensures EntryOutcome(entry, i, projectDir, src) ==
      Written(projectDir + "/" + ("public/" + Basename(pathname)), Transfer(src, i)[k].body)
  {
    var b := Basename(pathname);
    var dest := "public/" + b;
    assert Destination(entry, src.urlPath) == Ok(dest);
    PublicPieces(b);
    ResolvedEntryWritten(entry, i, projectDir, src, ds, ["public", b], dest, url, k);
  }

  /** `public/<b>` is the relative path of the two pieces `public` and `b`. */
  lemma PublicPieces(b: string)
    requires PlainName(b)
    ensures PlainPieces(["public", b]) && "/" + ("public/" + b) == JoinAbsolute(["public", b])
  {
    assert "public/" == "public" + "/";
    assert PlainName("public") by {
      assert "public"[0] == 'p';
    }
    TwoPieces("public", b);
    assert "public/" + b == "public" + "/" + b;
  }

  /** The outcomes of the first `n` entries, the `i`-th entry reading the `i`-th transfer. */
  function Outcomes(entries: seq<Json>, n: nat, projectDir: string, src: AssetSource): (r: seq<EntryResult>)
    requires n <= |entries|
    ensures |r| == n && forall i :: 0 <= i < n ==> r[i] == EntryOutcome(entries[i], i, projectDir, src)
  {
    seq(n, i requires 0 <= i < n => EntryOutcome(entries[i], i, projectDir, src))
  }

  /** The tree after the outcomes are applied in order: each write lands over the tree so
      far, a skip or a failure leaves it. */
  function ApplyOutcomes(files: Files, outcomes: seq<EntryResult>): Files
    decreases |outcomes|
  {
    if outcomes == [] then files
    else
      var before := ApplyOutcomes(files, outcomes[..|outcomes| - 1]);
      match outcomes[|outcomes| - 1]
      case Written(target, body) => before[target := body]
      case _ => before
  }

  /** The tree after the first `n` entries of the loop. */
  function AssetFiles(files: Files, entries: seq<Json>, n: nat, projectDir: string, src: AssetSource): Files
    requires n <= |entries|
  {
    ApplyOutcomes(files, Outcomes(entries, n, projectDir, src))
  }

  /** One more iteration writes the entry's download, if any, over the tree so far. */
  lemma AssetFilesStep(files: Files, entries: seq<Json>, n: nat, projectDir: string, src: AssetSource)
    requires n < |entries|
    ensures var before := AssetFiles(files, entries, n, projectDir, src);
      AssetFiles(files, entries, n + 1, projectDir, src) ==
        match EntryOutcome(entries[n], n, projectDir, src)
        case Written(target, body) => before[target := body]
        case _ => before
  {
    var next := Outcomes(entries, n + 1, projectDir, src);
    assert next[..n] == Outcomes(entries, n, projectDir, src);
  }

  /** The tree after `downloadAssets`. */
  function DownloadedFiles(files: Files, framework: string, projectDir: string, src: AssetSource): Files {
    var applicable := Applicable(LoadAssetManifest(src.manifest, src.parseJson), framework);
    AssetFiles(files, applicable, |applicable|, projectDir, src)
  }

  /** Writes that all pass the guard only add or overwrite files under the project
      directory. */
  lemma {:induction false} OutcomesStayInside(files: Files, outcomes: seq<EntryResult>, projectDir: string)
    requires forall i :: 0 <= i < |outcomes| && outcomes[i].Written? ==> InsideProject(outcomes[i].target, projectDir)
    ensures files.Keys <= ApplyOutcomes(files, outcomes).Keys
    ensures var after := ApplyOutcomes(files, outcomes);
      forall p :: p in after && (p !in files || after[p] != files[p]) ==> InsideProject(p, projectDir)
    decreases |outcomes|
  {
    if outcomes != [] {
      var last := |outcomes| - 1;
      var prefix := outcomes[..last];
      assert forall i :: 0 <= i < |prefix| ==> prefix[i] == outcomes[i];
      OutcomesStayInside(files, prefix, projectDir);
    }
  }

  /** Downloads only add or overwrite files, always under the project directory. */
  lemma AssetFilesStayInside(files: Files, entries: seq<Json>, n: nat, projectDir: string, src: AssetSource)
    requires n <= |entries|
    ensures files.Keys <= AssetFiles(files, entries, n, projectDir, src).Keys
    ensures var after := AssetFiles(files, entries, n, projectDir, src);
      forall p :: p in after && (p !in files || after[p] != files[p]) ==> InsideProject(p, projectDir)
  {
    OutcomesStayInside(files, Outcomes(entries, n, projectDir, src), projectDir);
  }

  /** `downloadAssets` never creates or changes a file outside the project directory, and
      never removes one. */
  lemma DownloadsStayInside(files: Files, framework: string, projectDir: string, src: AssetSource)
    ensures files.Keys <= DownloadedFiles(files, framework, projectDir, src).Keys
    ensures var after := DownloadedFiles(files, framework, projectDir, src);
      forall p :: p in after && (p !in files || after[p] != files[p]) ==> InsideProject(p, projectDir)
  {
    var applicable := Applicable(LoadAssetManifest(src.manifest, src.parseJson), framework);
    AssetFilesStayInside(files, applicable, |applicable|, projectDir, src);
  }

  /** A missing, unparsable, non-array, empty or entirely inapplicable manifest downloads
      nothing. */
  lemma NothingApplicableNoDownloads(files: Files, framework: string, projectDir: string, src: AssetSource)
    requires forall e :: e in LoadAssetManifest(src.manifest, src.parseJson) ==> !Applies(e, framework)
    ensures DownloadedFiles(files, framework, projectDir, src) == files
  {
  }

  /** The body of the download loop for the entry at `i`: a failure or a skip leaves the
      tree as it is. */
  method DownloadEntry(t: Tree, entry: Json, i: nat, projectDir: string, src: AssetSource)
    modifies t
    ensures t.files == match EntryOutcome(entry, i, projectDir, src)
      case Written(target, body) => old(t.files)[target := body]
      case _ => old(t.files)
  {
    var dest := Destination(entry, src.urlPath);
    if dest.Err? {
      return;
    }
    var target := Resolve(projectDir, dest.value);
    if !InsideProject(target, projectDir) {
      return;
    }
    var url := UrlText(entry);
    if url.None? {
      return;
    }
    var fetched := DownloadFile(url.value, Transfer(src, i), 0);
    if fetched.Saved? {
      t.Write(target, fetched.body);
    }
  }

  /** The download loop over the applicable entries, in order. */
  method DownloadEach(t: Tree, applicable: seq<Json>, projectDir: string, src: AssetSource)
    modifies t
    ensures t.files == AssetFiles(old(t.files), applicable, |applicable|, projectDir, src)
  {
    for i := 0 to |applicable|
      invariant t.files == AssetFiles(old(t.files), applicable, i, projectDir, src)
    {
      AssetFilesStep(old(t.files), applicable, i, projectDir, src);
      DownloadEntry(t, applicable[i], i, projectDir, src);
    }
  }

  /** `downloadAssets`: nothing to do without manifest entries or applicable ones;
      otherwise one entry at a time, a failure or a skip moving on to the next. */
  method DownloadAssets(t: Tree, framework: string, projectDir: string, src: AssetSource)
    modifies t
    ensures t.files == DownloadedFiles(old(t.files), framework, projectDir, src)
  {
    var entries := LoadAssetManifest(src.manifest, src.parseJson);
    if |entries| == 0 {
      return;
    }
    var applicable := Applicable(entries, framework);
    if |applicable| == 0 {
      return;
    }
    DownloadEach(t, applicable, projectDir, src);
  }
}
