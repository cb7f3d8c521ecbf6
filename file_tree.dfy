/** The project tree the post-processors rewrite in place (the `fs-extra` calls
    `pathExists`, `readFile`, `outputFile`/`writeFile` and `remove`), and the
    first-existing-candidate rule shared by every path resolver. */
module FileTree {
  import opened Wrappers
  import opened Text
  import opened Paths

  type Files = map<string, string>

  /** A file at `path`, or a directory holding some file. */
  predicate PathExists(files: Files, path: string) {
    path in files || exists q :: q in files && StartsWith(q, path + "/")
  }

  class Tree {
    /** Full path to file content. */
    var files: Files

    constructor (initial: Files)
      ensures files == initial
    {
      files := initial;
    }

    method Exists(path: string) returns (b: bool)
      ensures b <==> path in files
    {
      b := path in files;
    }

    /** `pathExists` on a directory: directories are not stored, and one exists exactly
        when a file lies below it. */
    method ExistsPath(path: string) returns (b: bool)
      ensures b <==> PathExists(files, path)
    {
      b := path in files || exists q :: q in files && StartsWith(q, path + "/");
    }

    method Read(path: string) returns (content: string)
      requires path in files
      ensures content == files[path]
    {
      content := files[path];
    }

    method Write(path: string, content: string)
      modifies this
      ensures files == old(files)[path := content]
    {
      files := files[path := content];
    }

    /** Removing a missing path is not an error. */
    method Remove(path: string)
      modifies this
      ensures files == old(files) - {path}
    {
      files := files - {path};
    }
  }

  /** Index of the first candidate that exists under `dir`, if any. */
  function FirstExistingIndex(files: Files, dir: string, candidates: seq<string>): (r: Option<nat>)
    ensures r.Some? ==> r.value < |candidates| && Join(dir, candidates[r.value]) in files
    ensures r.Some? ==> forall j :: 0 <= j < r.value ==> Join(dir, candidates[j]) !in files
    ensures r.None? ==> forall j :: 0 <= j < |candidates| ==> Join(dir, candidates[j]) !in files
  {
    if candidates == [] then None
    else if Join(dir, candidates[0]) in files then Some(0)
    else
      match FirstExistingIndex(files, dir, candidates[1..])
      case None => None
      case Some(i) => Some(i + 1)
  }

  /** Full path of the first candidate that exists under `dir`, if any. */
  function FirstExisting(files: Files, dir: string, candidates: seq<string>): Option<string> {
    match FirstExistingIndex(files, dir, candidates)
    case None => None
    case Some(i) => Some(Join(dir, candidates[i]))
  }

  /** The first existing candidate is the one at `i` when none before it exists. */
  lemma FirstExistingAt(files: Files, dir: string, candidates: seq<string>, i: nat)
    requires i < |candidates| && Join(dir, candidates[i]) in files
    requires forall j :: 0 <= j < i ==> Join(dir, candidates[j]) !in files
    ensures FirstExistingIndex(files, dir, candidates) == Some(i)
    ensures FirstExisting(files, dir, candidates) == Some(Join(dir, candidates[i]))
  {
  }

  /** Candidate resolution only looks at the candidates: two trees that agree on which
      candidates exist resolve to the same path. */
  lemma {:induction false} FirstExistingAgrees(f: Files, g: Files, dir: string, candidates: seq<string>)
    requires forall c :: c in candidates ==> (Join(dir, c) in f <==> Join(dir, c) in g)
    ensures FirstExisting(f, dir, candidates) == FirstExisting(g, dir, candidates)
  {
    if candidates != [] {
      FirstExistingAgrees(f, g, dir, candidates[1..]);
    }
  }

  /** The tree without the files `rels` name under `dir`. */
  function Without(files: Files, dir: string, rels: seq<string>): (r: Files)
    ensures forall rel :: rel in rels ==> Join(dir, rel) !in r
    ensures forall p :: p in r <==> p in files && forall rel :: rel in rels ==> p != Join(dir, rel)
    ensures forall p :: p in r ==> r[p] == files[p]
  {
    files - (set rel | rel in rels :: Join(dir, rel))
  }

  /** Removing one more name is removing its path from the tree so far. */
  lemma WithoutStep(files: Files, dir: string, rels: seq<string>, rel: string)
    ensures Without(files, dir, rels + [rel]) == Without(files, dir, rels) - {Join(dir, rel)}
  {
    var names := set r | r in rels :: Join(dir, r);
    var more := set r | r in rels + [rel] :: Join(dir, r);
    assert more == names + {Join(dir, rel)};
  }

  /** The first existing candidate, else the first candidate. */
  function TargetFile(files: Files, baseDir: string, candidates: seq<string>): string
    requires |candidates| > 0
  {
    FirstExisting(files, baseDir, candidates).GetOr(Join(baseDir, candidates[0]))
  }

  /** The fallback resolution always names one of the candidates. */
  lemma TargetFileIsCandidate(files: Files, baseDir: string, candidates: seq<string>) returns (i: nat)
    requires |candidates| > 0
    ensures i < |candidates| && TargetFile(files, baseDir, candidates) == Join(baseDir, candidates[i])
  {
    i := FirstExistingIndex(files, baseDir, candidates).GetOr(0);
  }
}
