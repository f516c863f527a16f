/**
 `UniqueFileName`: numbered variants of a path, tried until one does not exist.

 Each round rewrites the previous attempt by cutting a fixed number of characters, four up to the tenth round and
 five afterwards, in front of the extension. Existing files are a finite set of paths.
 */
module UniqueName {
  import opened Wrappers
  import Decimal

  // Extensions

  /** The suffix from the last dot of the last path element, or nothing. */
  function Ext(path: string): (ext: string)
    ensures IsExt(path, ext)
  {
    ExtBefore(path, |path|)
  }

  function ExtBefore(path: string, i: nat): (ext: string)
    requires i <= |path| && '.' !in path[i..] && '/' !in path[i..]
    ensures IsExt(path, ext)
  {
    if i == 0 || path[i - 1] == '/' then ""
    else if path[i - 1] == '.' then path[i - 1..]
    else ExtBefore(path, i - 1)
  }

  /** `ext` starts at the last dot, and no separator follows that dot. */
  ghost predicate IsExt(path: string, ext: string) {
    if ext == "" then NoExt(path)
    else
      && |ext| <= |path| && path[|path| - |ext|..] == ext
      && ext[0] == '.' && '.' !in ext[1..] && '/' !in ext[1..]
  }

  ghost predicate NoExt(path: string) {
    forall i :: 0 <= i < |path| && path[i] == '.' ==> '/' in path[i + 1..]
  }

  lemma AfterDot(path: string, ext: string, i: int)
    requires IsExt(path, ext) && ext != "" && |path| - |ext| < i < |path|
    ensures path[i] != '.' && path[i] != '/'
  {
    assert path[i] == ext[1..][i - (|path| - |ext|) - 1];
  }

  lemma ExtHasDot(path: string, ext: string)
    requires IsExt(path, ext) && ext != ""
    ensures !NoExt(path)
  {
    var i := |path| - |ext|;
    assert path[i] == '.' && path[i + 1..] == ext[1..];
  }

  lemma ExtUnique(path: string, a: string, b: string)
    requires IsExt(path, a) && IsExt(path, b)
    ensures a == b
  {
    if a != "" { ExtHasDot(path, a); }
    if b != "" { ExtHasDot(path, b); }
    if a != "" && b != "" {
      var i, j := |path| - |a|, |path| - |b|;
      if i < j {
        AfterDot(path, a, j);
      } else if j < i {
        AfterDot(path, b, i);
      }
    }
  }

  function Base(path: string): string {
    path[..|path| - |Ext(path)|]
  }

  /** Text without dots and separators put in front of the extension does not change it. */
  lemma ExtKept(path: string, middle: string)
    requires '.' !in middle && '/' !in middle
    ensures Ext(Base(path) + middle + Ext(path)) == Ext(path)
  {
    var ext, base := Ext(path), Base(path);
    var longer := base + middle + ext;
    if ext == "" {
      assert path == base;
      forall i | |base| <= i < |longer| ensures longer[i] != '.' {
        assert longer[i] == middle[i - |base|];
      }
      forall i | 0 <= i < |base| && longer[i] == '.' ensures '/' in longer[i + 1..] {
        assert path[i] == '.';
        var k :| 0 <= k < |path[i + 1..]| && path[i + 1..][k] == '/';
        assert longer[i + 1..][k] == '/';
      }
    } else {
      assert longer[|longer| - |ext|..] == ext;
    }
    ExtUnique(longer, Ext(longer), ext);
  }

  // The candidates

  function Tag(k: nat): string {
    " (" + Decimal.Print(k) + ")"
  }

  /** Characters cut in round `k`. */
  function Cut(k: nat): nat {
    if k <= 1 then 0 else if k < 11 then 4 else 5
  }

  /** The text that `k` rounds leave between the base and the extension. */
  function Middle(k: nat): (m: string)
    requires k >= 1
    ensures '.' !in m && '/' !in m
    decreases k, 1
  {
    TagPlain(k);
    Residue(k) + Tag(k)
  }

  /** What is left of the earlier tags when tag `k` is appended. */
  function Residue(k: nat): (r: string)
    ensures '.' !in r && '/' !in r
    ensures k <= 100 ==> r == ""
    ensures k > 100 ==> |r| >= k - 100
    decreases k, 0
  {
    if k <= 1 then ""
    else
      Decimal.PrintLength(k - 1);
      TagPlain(k - 1);
      Middle(k - 1)[..|Middle(k - 1)| - Cut(k)]
  }

  lemma TagPlain(k: nat)
    ensures '.' !in Tag(k) && '/' !in Tag(k) && |Tag(k)| == |Decimal.Print(k)| + 3
  {
    Decimal.PrintParse(k);
  }

  /** The path tried after `k` collisions. */
  function Candidate(path: string, k: nat): string {
    if k == 0 then path else Inserted(path, Middle(k))
  }

  function Inserted(path: string, middle: string): string {
    Base(path) + middle + Ext(path)
  }

  /** What one round does to a path with extension `ext`. */
  function Rewritten(c: string, ext: string, cut: nat, tag: string): string
    requires |c| - |ext| - cut >= 0
  {
    c[..|c| - |ext| - cut] + tag + ext
  }

  lemma TagLength(k: nat)
    ensures |Tag(k)| >= Cut(k + 1)
  {
    Decimal.PrintLength(k);
    Decimal.PrintParse(k);
  }

  lemma MiddleStep(k: nat)
    requires k >= 2
    ensures Cut(k) <= |Middle(k - 1)|
    ensures Middle(k) == Middle(k - 1)[..|Middle(k - 1)| - Cut(k)] + Tag(k)
  {
    TagLength(k - 1);
  }

  /** Cutting the end of the middle and appending a tag, on whole paths. */
  lemma RewriteMiddle(path: string, before: string, cut: nat, tag: string, after: string)
    requires cut <= |before| && after == before[..|before| - cut] + tag
    ensures var c, ext := Inserted(path, before), Ext(path);
            |c| - |ext| - cut >= 0 && Rewritten(c, ext, cut, tag) == Inserted(path, after)
  {
    var c, ext, base := Inserted(path, before), Ext(path), Base(path);
    assert c[..|c| - |ext| - cut] == base + before[..|before| - cut];
    assert (base + before[..|before| - cut]) + tag == base + after;
  }

  lemma CandidateExt(path: string, k: nat)
    ensures Ext(Candidate(path, k)) == Ext(path)
  {
    if k > 0 { ExtKept(path, Middle(k)); }
  }

  lemma FirstCandidate(path: string)
    ensures Rewritten(path, Ext(path), 0, Tag(1)) == Candidate(path, 1)
  {
    assert Middle(1) == Tag(1);
  }

  lemma LaterCandidate(path: string, k: nat)
    requires k >= 2
    ensures var c, ext := Candidate(path, k - 1), Ext(path);
            |c| - |ext| - Cut(k) >= 0 && Rewritten(c, ext, Cut(k), Tag(k)) == Candidate(path, k)
  {
    hide Middle, Residue, Tag, Ext, Base, Inserted, Cut;
    MiddleStep(k);
    RewriteMiddle(path, Middle(k - 1), Cut(k), Tag(k), Middle(k));
  }

  /** The loop's rewriting of one candidate is the next candidate, and its slice is never out of range. */
  lemma NextCandidate(path: string, k: nat)
    requires k >= 1
    ensures var c, ext := Candidate(path, k - 1), Ext(Candidate(path, k - 1));
            |c| - |ext| - Cut(k) >= 0 && Rewritten(c, ext, Cut(k), Tag(k)) == Candidate(path, k)
  {
    hide Middle, Residue, Tag, Ext, Base, Inserted;
    CandidateExt(path, k - 1);
    if k == 1 {
      FirstCandidate(path);
    } else {
      LaterCandidate(path, k);
    }
  }

  lemma TagShape(x: string, a: string)
    ensures var s := x + (" (" + a + ")");
            |s| == |x| + |a| + 3 && s[|x| + 1] == '(' && s[|x| + 2..|s| - 1] == a && s[|s| - 1] == ')'
  {
  }

  /** In a tagged string the last opening parenthesis is the tag's. */
  lemma LastOpen(x: string, a: string, p: int)
    requires '(' !in a && |x| + 1 < p < |x| + 3 + |a|
    ensures (x + (" (" + a + ")"))[p] != '('
  {
    TagShape(x, a);
    var s := x + (" (" + a + ")");
    if p < |s| - 1 {
      assert s[p] == s[|x| + 2..|s| - 1][p - |x| - 2];
    }
  }

  /** The number stands between the last opening parenthesis and the end. */
  lemma TagsDiffer(x: string, y: string, a: string, b: string)
    requires '(' !in a && '(' !in b && x + (" (" + a + ")") == y + (" (" + b + ")")
    ensures a == b
  {
    TagShape(x, a);
    TagShape(y, b);
    if |x| < |y| {
      LastOpen(x, a, |y| + 1);
    } else if |y| < |x| {
      LastOpen(y, b, |x| + 1);
    }
  }

  lemma MiddlesDiffer(j: nat, k: nat)
    requires 1 <= j < k
    ensures Middle(j) != Middle(k)
  {
    if Middle(j) == Middle(k) {
      Decimal.PrintParse(j);
      Decimal.PrintParse(k);
      TagsDiffer(Residue(j), Residue(k), Decimal.Print(j), Decimal.Print(k));
      Decimal.PrintInjective(j, k);
    }
  }

  lemma SameMiddle(base: string, a: string, b: string, ext: string)
    requires base + a + ext == base + b + ext
    ensures a == b
  {
    var c := base + a + ext;
    assert |a| == |b|;
    assert a == c[|base|..|c| - |ext|] == b;
  }

  lemma CandidatesDiffer(path: string, j: nat, k: nat)
    requires j < k
    ensures Candidate(path, j) != Candidate(path, k)
  {
    var base, ext := Base(path), Ext(path);
    assert path == base + ext;
    if j > 0 {
      MiddlesDiffer(j, k);
      if Candidate(path, j) == Candidate(path, k) { SameMiddle(base, Middle(j), Middle(k), ext); }
    }
  }

  /** The candidate has the expected form "base (k)ext" up to the hundredth collision, and never again. */
  lemma PlainFormIff(path: string, k: nat)
    requires k >= 1
    ensures Candidate(path, k) == Base(path) + (" (" + Decimal.Print(k) + ")") + Ext(path) <==> k <= 100
  {
    if k <= 100 {
      assert Middle(k) == Tag(k);
    } else {
      assert |Middle(k)| > |Tag(k)|;
    }
  }

  // The loop

  function Tried(path: string, n: nat): set<string> {
    if n == 0 then {} else Tried(path, n - 1) + {Candidate(path, n - 1)}
  }

  lemma {:induction false} NotTried(path: string, n: nat, k: nat)
    requires n <= k
    ensures Candidate(path, k) !in Tried(path, n)
  {
    if n > 0 {
      NotTried(path, n - 1, k);
      CandidatesDiffer(path, n - 1, k);
    }
  }

  lemma {:induction false} TriedSize(path: string, n: nat, existing: set<string>)
    requires forall i :: 0 <= i < n ==> Candidate(path, i) in existing
    ensures |Tried(path, n)| == n && Tried(path, n) <= existing
  {
    if n > 0 {
      TriedSize(path, n - 1, existing);
      NotTried(path, n - 1, n - 1);
    }
  }

  /** Each round meets a different existing path, so there are no more rounds than paths. */
  lemma RoundsBound(path: string, n: nat, existing: set<string>)
    requires forall i :: 0 <= i < n ==> Candidate(path, i) in existing
    ensures n <= |existing|
  {
    TriedSize(path, n, existing);
    var tried := Tried(path, n);
    assert existing == tried + (existing - tried);
  }

  /** Returns the first candidate that does not exist, after at most as many rounds as files exist. */
  method UniqueFileName(path: string, existing: set<string>) returns (r: string, ghost k: nat)
    ensures r !in existing
    ensures k <= |existing| && r == Candidate(path, k)
    ensures forall i :: 0 <= i < k ==> Candidate(path, i) in existing
  {
    r := path;
    var counter := 1;
    RoundsBound(path, 0, existing);
    while r in existing
      invariant 1 <= counter && r == Candidate(path, counter - 1)
      invariant forall i :: 0 <= i < counter - 1 ==> Candidate(path, i) in existing
      invariant counter - 1 <= |existing|
      decreases |existing| - counter
    {
      RoundsBound(path, counter, existing);
      NextCandidate(path, counter);
      var ext, tag := Ext(r), " (" + Decimal.Print(counter) + ")";
      if counter > 1 && counter < 11 {
        r := r[..|r| - |ext| - 4] + tag + ext;
      } else if counter >= 11 {
        r := r[..|r| - |ext| - 5] + tag + ext;
      } else {
        r := r[..|r| - |ext|] + tag + ext;
      }
      counter := counter + 1;
    }
    k := counter - 1;
  }
}
