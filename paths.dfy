/** POSIX path handling as Node's `path` module performs it on the strings the source
    builds: `join` of a directory and a fixed relative name, `basename`, and `resolve`
    with its `.`/`..` normalisation. */
module Paths {
  import opened Text

  /** `path.join(dir, rel)` for a normalised `dir` and a relative `rel` without `.`/`..`. */
  function Join(dir: string, rel: string): string {
    dir + "/" + rel
  }

  /** Two different relative names give two different joined paths. */
  lemma JoinInjective(dir: string, a: string, b: string)
    requires a != b
    ensures Join(dir, a) != Join(dir, b)
  {
    assert Join(dir, a)[|dir| + 1..] == a;
    assert Join(dir, b)[|dir| + 1..] == b;
  }

  /** The `/`-separated pieces of `p`, empty pieces included (`p.split('/')`). */
  function Segments(p: string): (r: seq<string>)
    ensures |r| > 0
  {
    if |p| == 0 then [""]
    else
      var rest := Segments(p[1..]);
      if p[0] == '/' then [""] + rest
      else [[p[0]] + rest[0]] + rest[1..]
  }

  /** Walks the pieces left to right: empty and `.` pieces vanish, `..` drops the last
      kept piece (never above the root), other pieces are kept. */
  function Collapse(kept: seq<string>, pieces: seq<string>): seq<string>
    decreases |pieces|
  {
    if pieces == [] then kept
    else
      var s := pieces[0];
      if s == "" || s == "." then Collapse(kept, pieces[1..])
      else if s == ".." then Collapse(if kept == [] then kept else kept[..|kept| - 1], pieces[1..])
      else Collapse(kept + [s], pieces[1..])
  }

  function JoinAbsolute(pieces: seq<string>): string {
    if pieces == [] then "" else "/" + pieces[0] + JoinAbsolute(pieces[1..])
  }

  /** The normal absolute form of `p`, without a trailing slash. */
  function Normalize(p: string): string {
    var joined := JoinAbsolute(Collapse([], Segments(p)));
    if joined == "" then "/" else joined
  }

  /** `path.resolve(dir, rel)` for an absolute `dir`: an absolute `rel` replaces it. */
  function Resolve(dir: string, rel: string): (r: string)
    ensures |r| > 0 && r[0] == '/'
  {
    if StartsWith(rel, "/") then Normalize(rel) else Normalize(dir + "/" + rel)
  }

  /** `p` without its trailing slashes: a prefix of `p` followed there only by slashes. */
  function StripTrailingSlashes(p: string): (r: string)
    ensures |r| == 0 || r[|r| - 1] != '/'
    ensures |r| <= |p| && r == p[..|r|]
    ensures forall i :: |r| <= i < |p| ==> p[i] == '/'
  {
    if |p| > 0 && p[|p| - 1] == '/' then StripTrailingSlashes(p[..|p| - 1]) else p
  }

  function AfterLastSlash(p: string): string {
    if |p| == 0 then ""
    else if p[|p| - 1] == '/' then ""
    else AfterLastSlash(p[..|p| - 1]) + [p[|p| - 1]]
  }

  /** `path.basename(p)`: the last piece, trailing slashes ignored; empty for `/` and "". */
  function Basename(p: string): (r: string)
    ensures '/' !in r
    ensures EndsWith(StripTrailingSlashes(p), r)
    ensures var q := StripTrailingSlashes(p); |r| == |q| || q[|q| - |r| - 1] == '/'
  {
    BasenameFacts(StripTrailingSlashes(p));
    AfterLastSlash(StripTrailingSlashes(p))
  }

  lemma {:induction false} BasenameFacts(p: string)
    ensures '/' !in AfterLastSlash(p)
    ensures EndsWith(p, AfterLastSlash(p))
    ensures var r := AfterLastSlash(p); |r| == |p| || p[|p| - |r| - 1] == '/'
  {
    if |p| > 0 && p[|p| - 1] != '/' {
      var init := p[..|p| - 1];
      BasenameFacts(init);
      var r := AfterLastSlash(init);
      assert p == init + [p[|p| - 1]];
      assert p[|p| - (|r| + 1)..] == init[|init| - |r|..] + [p[|p| - 1]];
    }
  }

  /** A piece name that `Collapse` keeps: not empty, not `.` or `..`, no slash. */
  predicate PlainName(n: string) {
    n != "" && n != "." && n != ".." && '/' !in n
  }

  lemma {:induction false} SegmentsPlain(s: string)
    requires '/' !in s
    ensures Segments(s) == [s]
  {
    if |s| > 0 {
      SegmentsPlain(s[1..]);
      assert s == [s[0]] + s[1..];
    }
  }

  lemma {:induction false} SegmentsSplit(a: string, b: string)
    ensures Segments(a + "/" + b) == Segments(a) + Segments(b)
  {
    if |a| == 0 {
      assert a + "/" + b == "/" + b;
      assert ("/" + b)[1..] == b;
    } else {
      SegmentsSplit(a[1..], b);
      assert (a + "/" + b)[1..] == a[1..] + "/" + b;
      if a[0] == '/' {
        SegmentsSplitAtSlash(a, b);
      } else {
        SegmentsSplitAtChar(a, b);
      }
    }
  }

  lemma SegmentsSplitAtSlash(a: string, b: string)
    requires |a| > 0 && a[0] == '/'
    requires (a + "/" + b)[1..] == a[1..] + "/" + b
    requires Segments(a[1..] + "/" + b) == Segments(a[1..]) + Segments(b)
    ensures Segments(a + "/" + b) == Segments(a) + Segments(b)
  {
    var ab := a + "/" + b;
    var ra, sb := Segments(a[1..]), Segments(b);
    assert Segments(ab) == [""] + (ra + sb) by { assert ab[0] == '/'; }
    assert Segments(a) == [""] + ra;
    AppendAssociates([""], ra, sb);
  }

  lemma AppendAssociates(x: seq<string>, y: seq<string>, z: seq<string>)
    ensures x + (y + z) == (x + y) + z
  {
  }

  lemma SegmentsSplitAtChar(a: string, b: string)
    requires |a| > 0 && a[0] != '/'
    requires (a + "/" + b)[1..] == a[1..] + "/" + b
    requires Segments(a[1..] + "/" + b) == Segments(a[1..]) + Segments(b)
    ensures Segments(a + "/" + b) == Segments(a) + Segments(b)
  {
    var ab := a + "/" + b;
    var ra, sb := Segments(a[1..]), Segments(b);
    assert Segments(ab) == [[a[0]] + (ra + sb)[0]] + (ra + sb)[1..] by { assert ab[0] == a[0]; }
    assert Segments(a) == [[a[0]] + ra[0]] + ra[1..];
    FirstPieceGrows(a[0], ra, sb);
  }

  /** Extending the first piece of `ra` commutes with appending `sb`. */
  lemma FirstPieceGrows(c: char, ra: seq<string>, sb: seq<string>)
    requires |ra| > 0
    ensures [[c] + (ra + sb)[0]] + (ra + sb)[1..] == ([[c] + ra[0]] + ra[1..]) + sb
  {
    assert (ra + sb)[1..] == ra[1..] + sb;
  }

  /** Pieces that normalisation keeps as they are. */
  predicate PlainPieces(ps: seq<string>) {
    forall i :: 0 <= i < |ps| ==> PlainName(ps[i])
  }

  /** A name followed by `/`-prefixed plain pieces splits back into those pieces. */
  lemma {:induction false} SegmentsNameThenJoin(n: string, ps: seq<string>)
    requires '/' !in n && PlainPieces(ps)
    ensures Segments(n + JoinAbsolute(ps)) == [n] + ps
    decreases |ps|
  {
    if ps == [] {
      assert n + JoinAbsolute(ps) == n;
      SegmentsPlain(n);
    } else {
      var tail := ps[0] + JoinAbsolute(ps[1..]);
      assert n + JoinAbsolute(ps) == n + "/" + tail;
      SegmentsSplit(n, tail);
      SegmentsPlain(n);
      SegmentsNameThenJoin(ps[0], ps[1..]);
      assert [ps[0]] + ps[1..] == ps;
    }
  }

  /** Plain pieces pass `Collapse` unchanged. */
  lemma {:induction false} CollapsePlain(kept: seq<string>, ps: seq<string>)
    requires PlainPieces(ps)
    ensures Collapse(kept, ps) == kept + ps
    decreases |ps|
  {
    if ps != [] {
      CollapsePlain(kept + [ps[0]], ps[1..]);
      assert kept + [ps[0]] + ps[1..] == kept + ps;
    }
  }

  lemma {:induction false} JoinAbsoluteAppend(a: seq<string>, b: seq<string>)
    ensures JoinAbsolute(a + b) == JoinAbsolute(a) + JoinAbsolute(b)
    decreases |a|
  {
    if a == [] {
      assert a + b == b;
    } else {
      assert (a + b)[0] == a[0] && (a + b)[1..] == a[1..] + b;
      JoinAbsoluteAppend(a[1..], b);
    }
  }

  /** Two plain pieces make the absolute path `/a/b`. */
  lemma TwoPieces(a: string, b: string)
    requires PlainName(a) && PlainName(b)
    ensures PlainPieces([a, b]) && JoinAbsolute([a, b]) == "/" + (a + "/" + b)
  {
    assert [a, b][1..] == [b] && [b][1..] == [];
    assert JoinAbsolute([b]) == "/" + b + "";
    assert JoinAbsolute([a, b]) == "/" + a + ("/" + b + "");
    assert PlainName([a, b][1]);
  }

  /** A path built from plain pieces is already in normal form. */
  lemma NormalizePlain(ps: seq<string>)
    requires ps != [] && PlainPieces(ps)
    ensures Normalize(JoinAbsolute(ps)) == JoinAbsolute(ps)
  {
    SegmentsNameThenJoin("", ps);
    assert "" + JoinAbsolute(ps) == JoinAbsolute(ps);
    assert Collapse([], [""] + ps) == Collapse([], ps) by {
      assert ([""] + ps)[0] == "" && ([""] + ps)[1..] == ps;
    }
    CollapsePlain([], ps);
    assert [] + ps == ps;
  }

  /** For a normal absolute `dir` and a relative `rel` made of plain pieces,
      `path.resolve(dir, rel)` is `dir`, a slash and `rel`. */
  lemma ResolvePlain(ds: seq<string>, rs: seq<string>, dir: string, rel: string)
    requires PlainPieces(ds) && PlainPieces(rs) && rs != []
    requires dir == JoinAbsolute(ds) && "/" + rel == JoinAbsolute(rs)
    ensures Resolve(dir, rel) == dir + "/" + rel
  {
    assert rel[0] == rs[0][0] by {
      assert JoinAbsolute(rs) == "/" + rs[0] + JoinAbsolute(rs[1..]);
      assert ("/" + rel)[1] == rel[0];
    }
    assert !StartsWith(rel, "/");
    JoinAbsoluteAppend(ds, rs);
    assert PlainPieces(ds + rs) by {
      forall i | 0 <= i < |ds + rs| ensures PlainName((ds + rs)[i]) {
        if i >= |ds| { assert (ds + rs)[i] == rs[i - |ds|]; }
      }
    }
    assert dir + "/" + rel == JoinAbsolute(ds + rs);
    NormalizePlain(ds + rs);
  }

  /** `Collapse` works piece by piece: collapsing a concatenation is collapsing the rest
      after the first part. */
  lemma {:induction false} CollapseAppend(kept: seq<string>, a: seq<string>, b: seq<string>)
    ensures Collapse(kept, a + b) == Collapse(Collapse(kept, a), b)
    decreases |a|
  {
    if a == [] {
      assert a + b == b;
    } else {
      assert (a + b)[0] == a[0] && (a + b)[1..] == a[1..] + b;
      var s := a[0];
      var next := if s == "" || s == "." then kept
                  else if s == ".." then (if kept == [] then kept else kept[..|kept| - 1])
                  else kept + [s];
      CollapseAppend(next, a[1..], b);
    }
  }

  /** `path.resolve(dir, rel)` for a relative `rel`: the pieces of `rel` collapse onto
      those already kept from `dir`. */
  lemma ResolveBySegments(dir: string, rel: string)
    requires !StartsWith(rel, "/")
    ensures var j := JoinAbsolute(Collapse(Collapse([], Segments(dir)), Segments(rel)));
            Resolve(dir, rel) == if j == "" then "/" else j
  {
    SegmentsSplit(dir, rel);
    CollapseAppend([], Segments(dir), Segments(rel));
  }

  /** `path.join(n, '..')` is `.`; the concatenation `n/..` resolves to the same target. */
  lemma ParentResolvesAlike(dir: string, n: string)
    requires PlainName(n)
    ensures Resolve(dir, n + "/" + "..") == Resolve(dir, ".")
  {
    assert (n + "/" + "..")[0] == n[0];
    assert !StartsWith(n + "/" + "..", "/") && !StartsWith(".", "/");
    ResolveBySegments(dir, n + "/" + "..");
    ResolveBySegments(dir, ".");
    SegmentsPlain(n);
    SegmentsPlain("..");
    SegmentsPlain(".");
    SegmentsSplit(n, "..");
    var k := Collapse([], Segments(dir));
    assert Collapse(k, [n, ".."]) == k by {
      assert [n, ".."][1..] == [".."] && [".."][1..] == [];
      assert (k + [n])[..|k + [n]| - 1] == k;
    }
    assert Collapse(k, ["."]) == k by {
      assert ["."][1..] == [];
    }
  }

  /** `path.join(n, '.')` is `n`; the concatenation `n/.` resolves to the same target. */
  lemma CurrentResolvesAlike(dir: string, n: string)
    requires PlainName(n)
    ensures Resolve(dir, n + "/" + ".") == Resolve(dir, n)
  {
    assert (n + "/" + ".")[0] == n[0];
    assert !StartsWith(n + "/" + ".", "/") && !StartsWith(n, "/");
    ResolveBySegments(dir, n + "/" + ".");
    ResolveBySegments(dir, n);
    SegmentsPlain(n);
    SegmentsPlain(".");
    SegmentsSplit(n, ".");
    var k := Collapse([], Segments(dir));
    assert Collapse(k, [n, "."]) == k + [n] by {
      assert [n, "."][1..] == ["."] && ["."][1..] == [];
    }
    assert Collapse(k, [n]) == k + [n] by {
      assert [n][1..] == [];
    }
  }
}
