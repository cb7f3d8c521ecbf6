/** String predicates with the meaning of the JavaScript built-ins the source calls:
    `startsWith`, `endsWith`, `includes` and `indexOf`. */
module Text {

  predicate StartsWith(s: string, p: string) {
    |p| <= |s| && s[..|p|] == p
  }

  predicate EndsWith(s: string, p: string) {
    |p| <= |s| && s[|s| - |p|..] == p
  }

  /** `w` occurs in `s` starting at index `k`. */
  predicate OccursAt(s: string, w: string, k: nat) {
    k + |w| <= |s| && s[k..k + |w|] == w
  }

  /** `s.includes(w)` */
  predicate Contains(s: string, w: string) {
    exists k: nat | k <= |s| :: OccursAt(s, w, k)
  }

  /** `s.indexOf(w, k)` for `k <= |s|`: the first occurrence at or after `k`, or -1. */
  function IndexFrom(s: string, w: string, k: nat): (r: int)
    decreases |s| - k
    ensures r == -1 || (k <= r && OccursAt(s, w, r))
    ensures r == -1 ==> forall j: nat :: k <= j ==> !OccursAt(s, w, j)
    ensures r != -1 ==> forall j: nat :: k <= j < r ==> !OccursAt(s, w, j)
  {
    if k + |w| > |s| then -1
    else if s[k..k + |w|] == w then k
    else IndexFrom(s, w, k + 1)
  }

  /** `s.indexOf(w)`: -1 exactly when `w` does not occur, else the first occurrence. */
  function IndexOf(s: string, w: string): (r: int)
    ensures r == -1 <==> !Contains(s, w)
    ensures r != -1 ==> 0 <= r && OccursAt(s, w, r)
    ensures r != -1 ==> forall j: nat :: j < r ==> !OccursAt(s, w, j)
  {
    IndexFrom(s, w, 0)
  }

  lemma OccursLeft(a: string, b: string, w: string, k: nat)
    requires OccursAt(a, w, k)
    ensures OccursAt(a + b, w, k)
  {
    assert (a + b)[k..k + |w|] == a[k..k + |w|];
  }

  lemma OccursRight(a: string, b: string, w: string, k: nat)
    requires OccursAt(b, w, k)
    ensures OccursAt(a + b, w, |a| + k)
  {
    assert (a + b)[|a| + k..|a| + k + |w|] == b[k..k + |w|];
  }

  lemma ContainsLeft(a: string, b: string, w: string)
    requires Contains(a, w)
    ensures Contains(a + b, w)
  {
    var k: nat :| k <= |a| && OccursAt(a, w, k);
    OccursLeft(a, b, w, k);
  }

  lemma ContainsRight(a: string, b: string, w: string)
    requires Contains(b, w)
    ensures Contains(a + b, w)
  {
    var k: nat :| k <= |b| && OccursAt(b, w, k);
    OccursRight(a, b, w, k);
  }

  lemma ContainsItself(w: string)
    ensures Contains(w, w)
  {
    assert OccursAt(w, w, 0);
  }

  /** A prefix of a string occurs in it. */
  lemma ContainsPrefix(s: string, p: string)
    requires StartsWith(s, p)
    ensures Contains(s, p)
  {
    assert OccursAt(s, p, 0);
  }

  lemma StartsWithConcat(a: string, b: string)
    ensures StartsWith(a + b, a)
  {
    assert (a + b)[..|a|] == a;
  }

  lemma EndsWithConcat(a: string, b: string)
    ensures EndsWith(a + b, b)
  {
    assert (a + b)[|a + b| - |b|..] == b;
  }

  lemma EndsWithExtend(a: string, b: string, c: string)
    requires EndsWith(b, c)
    ensures EndsWith(a + b, c)
  {
    assert (a + b)[|a + b| - |c|..] == b[|b| - |c|..];
  }

  lemma ContainsMiddle(a: string, w: string, b: string)
    ensures Contains(a + w + b, w)
  {
    assert (a + w + b)[|a|..|a| + |w|] == w;
    assert OccursAt(a + w + b, w, |a|);
  }

  /** An occurrence of `w` cannot straddle a position holding a character `w` lacks, so
      it lies wholly before or wholly after that position. */
  lemma ContainsSplit(s: string, w: string, i: nat)
    requires Contains(s, w) && i < |s| && s[i] !in w
    ensures Contains(s[..i], w) || Contains(s[i..], w)
  {
    var k: nat :| k <= |s| && OccursAt(s, w, k);
    if k + |w| <= i {
      assert s[..i][k..k + |w|] == s[k..k + |w|];
      assert OccursAt(s[..i], w, k);
    } else {
      assert i < k;
      assert s[i..][k - i..k - i + |w|] == s[k..k + |w|];
      assert OccursAt(s[i..], w, k - i);
    }
  }

  /** The parts joined in order: how the templates are assembled. */
  function Concat(parts: seq<string>): string {
    if parts == [] then "" else parts[0] + Concat(parts[1..])
  }

  lemma {:induction false} ConcatContainsPart(parts: seq<string>, i: nat)
    requires i < |parts|
    ensures Contains(Concat(parts), parts[i])
  {
    if i == 0 {
      ContainsItself(parts[0]);
      ContainsLeft(parts[0], Concat(parts[1..]), parts[0]);
    } else {
      ConcatContainsPart(parts[1..], i - 1);
      ContainsRight(parts[0], Concat(parts[1..]), parts[i]);
    }
  }

  lemma ConcatStartsWithFirst(parts: seq<string>)
    requires parts != []
    ensures StartsWith(Concat(parts), parts[0])
  {
    StartsWithConcat(parts[0], Concat(parts[1..]));
  }

  lemma ContainsTransitive(a: string, b: string, c: string)
    requires Contains(a, b) && Contains(b, c)
    ensures Contains(a, c)
  {
    var i: nat :| i <= |a| && OccursAt(a, b, i);
    var j: nat :| j <= |b| && OccursAt(b, c, j);
    assert a[i..i + |b|] == b;
    forall x | 0 <= x < |c|
      ensures a[i + j + x] == c[x]
    {
      assert a[i + j + x] == a[i..i + |b|][j + x] == b[j + x];
      assert b[j + x] == b[j..j + |c|][x];
    }
    assert a[i + j..i + j + |c|] == c;
    assert OccursAt(a, c, i + j);
  }

  /** A one-character string occurs exactly where that character does. */
  lemma OccursChar(s: string, c: char, k: nat)
    ensures OccursAt(s, [c], k) <==> k < |s| && s[k] == c
  {
    if k < |s| {
      assert s[k..k + 1] == [s[k]];
    }
  }

  lemma ContainsChar(s: string, c: char)
    ensures Contains(s, [c]) <==> c in s
  {
    if c in s {
      var k :| 0 <= k < |s| && s[k] == c;
      OccursChar(s, c, k);
    }
    if Contains(s, [c]) {
      var k: nat :| k <= |s| && OccursAt(s, [c], k);
      OccursChar(s, c, k);
    }
  }

  /** A React client-boundary directive opening a module, in either quoting. */
  predicate HasClientDirective(s: string) {
    StartsWith(s, "\"use client\";") || StartsWith(s, "'use client';")
  }

  /** Text opening with a letter carries no directive. */
  lemma NoDirectiveBeforeLetter(s: string)
    requires |s| > 0 && 'a' <= s[0] <= 'z'
    ensures !HasClientDirective(s)
  {
    var dq := "\"use client\";";
    var sq := "'use client';";
    assert dq[0] == '"' && sq[0] == '\'';
    if |s| >= |dq| {
      assert s[..|dq|][0] == s[0] && |sq| == |dq|;
    }
  }
}
