/** The tree of block headers, seen as the plain mathematical object that the fork
    choice and the chain indexes are measured against. */
module HeaderTree {
  import opened Prelude

  datatype Header = Header(hash: H256, parent: H256, number: nat, score: nat)

  type Headers = map<H256, Header>

  /** Block numbers are keyed by their low 32 bits. */
  const NUMBER_LIMIT: nat := 0x1_0000_0000

  /** `child` may stand directly on the header stored under its parent hash. */
  predicate FitsOn(hs: Headers, child: Header) {
    && child.parent in hs
    && child.number == hs[child.parent].number + 1
    && child.score > 0
    && child.number < NUMBER_LIMIT
  }

  /** `hs` is a tree of headers rooted at the genesis header `g`. */
  ghost predicate IsTree(hs: Headers, g: H256) {
    && g in hs && hs[g].number == 0
    && (forall h :: h in hs ==> hs[h].hash == h)
    && (forall h {:trigger FitsOn(hs, hs[h])} :: h in hs && h != g ==> FitsOn(hs, hs[h]))
  }

  /** The branch from genesis up to `h`: entry n is the ancestor of `h` with number n. */
  ghost function Path(hs: Headers, g: H256, h: H256): (p: seq<H256>)
    requires IsTree(hs, g) && h in hs
    ensures |p| == hs[h].number + 1
    ensures p[0] == g && p[|p| - 1] == h
    decreases hs[h].number
  {
    if h == g then [g] else assert FitsOn(hs, hs[h]); Path(hs, g, hs[h].parent) + [h]
  }

  ghost function TotalScore(hs: Headers, g: H256, h: H256): nat
    requires IsTree(hs, g) && h in hs
    decreases hs[h].number
  {
    if h == g then hs[g].score else assert FitsOn(hs, hs[h]); TotalScore(hs, g, hs[h].parent) + hs[h].score
  }

  /** Below any entry of a branch, the branch is that entry's own branch. */
  lemma {:induction false} PathPrefix(hs: Headers, g: H256, h: H256, n: nat)
    requires IsTree(hs, g) && h in hs && n <= hs[h].number
    ensures Path(hs, g, h)[n] in hs
    ensures hs[Path(hs, g, h)[n]].number == n
    ensures Path(hs, g, Path(hs, g, h)[n]) == Path(hs, g, h)[..n + 1]
    decreases hs[h].number
  {
    var p := Path(hs, g, h);
    if n == hs[h].number {
      assert p[..n + 1] == p;
    } else {
      assert FitsOn(hs, hs[h]);
      PathPrefix(hs, g, hs[h].parent, n);
      assert p[..n + 1] == Path(hs, g, hs[h].parent)[..n + 1];
    }
  }

  /** Consecutive entries of a branch are parent and child. */
  lemma PathParent(hs: Headers, g: H256, h: H256, n: nat)
    requires IsTree(hs, g) && h in hs && 1 <= n <= hs[h].number
    ensures Path(hs, g, h)[n] in hs && Path(hs, g, h)[n] != g
    ensures hs[Path(hs, g, h)[n]].parent == Path(hs, g, h)[n - 1]
  {
    var p := Path(hs, g, h);
    PathPrefix(hs, g, h, n);
    PathPrefix(hs, g, h, n - 1);
    assert p[..n + 1][n - 1] == p[n - 1];
    assert Path(hs, g, p[n]) == Path(hs, g, hs[p[n]].parent) + [p[n]];
  }

  /** A branch visits every header at most once. */
  lemma PathDistinct(hs: Headers, g: H256, h: H256)
    requires IsTree(hs, g) && h in hs
    ensures forall i, j :: 0 <= i < j <= hs[h].number ==> Path(hs, g, h)[i] != Path(hs, g, h)[j]
  {
    forall i, j | 0 <= i < j <= hs[h].number
      ensures Path(hs, g, h)[i] != Path(hs, g, h)[j]
    {
      PathPrefix(hs, g, h, i);
      PathPrefix(hs, g, h, j);
    }
  }

  /** Two branches that meet at a number agree at and below it. */
  lemma BranchesMeet(hs: Headers, g: H256, a: H256, b: H256, n: nat)
    requires IsTree(hs, g) && a in hs && b in hs
    requires n <= hs[a].number && n <= hs[b].number
    requires Path(hs, g, a)[n] == Path(hs, g, b)[n]
    ensures Path(hs, g, a)[..n + 1] == Path(hs, g, b)[..n + 1]
    ensures forall m :: 0 <= m <= n ==> Path(hs, g, a)[m] == Path(hs, g, b)[m]
  {
    PathPrefix(hs, g, a, n);
    PathPrefix(hs, g, b, n);
    var p, q := Path(hs, g, a), Path(hs, g, b);
    assert forall m :: 0 <= m <= n ==> p[m] == p[..n + 1][m] && q[m] == q[..n + 1][m];
  }

  /** Once two branches have parted they never share a header again. */
  lemma PartedBranches(hs: Headers, g: H256, a: H256, b: H256, k: nat, i: nat)
    requires IsTree(hs, g) && a in hs && b in hs
    requires k <= hs[b].number ==> k <= hs[a].number && Path(hs, g, a)[k] != Path(hs, g, b)[k]
    requires k <= i <= hs[a].number
    ensures Path(hs, g, a)[i] !in Path(hs, g, b)
  {
    var p, q := Path(hs, g, a), Path(hs, g, b);
    PathPrefix(hs, g, a, i);
    forall j | 0 <= j < |q| ensures q[j] != p[i] {
      PathPrefix(hs, g, b, j);
      if i == j && q[j] == p[i] {
        BranchesMeet(hs, g, a, b, i);
      }
    }
  }

  /** Scores only grow along a branch. */
  lemma {:induction false} ScoreGrows(hs: Headers, g: H256, h: H256, n: nat)
    requires IsTree(hs, g) && h in hs && n < hs[h].number
    ensures Path(hs, g, h)[n] in hs
    ensures TotalScore(hs, g, Path(hs, g, h)[n]) < TotalScore(hs, g, h)
    decreases hs[h].number
  {
    assert FitsOn(hs, hs[h]);
    if n + 1 < hs[h].number {
      ScoreGrows(hs, g, hs[h].parent, n);
    }
  }

  /** A growing tree neither moves nor rescores the headers already there. */
  lemma {:induction false} SubTree(hs: Headers, hs': Headers, g: H256, h: H256)
    requires IsTree(hs, g) && IsTree(hs', g) && SubMap(hs, hs') && h in hs
    ensures Path(hs', g, h) == Path(hs, g, h)
    ensures TotalScore(hs', g, h) == TotalScore(hs, g, h)
    decreases hs[h].number
  {
    if h != g {
      assert FitsOn(hs, hs[h]);
      SubTree(hs, hs', g, hs[h].parent);
    }
  }

  lemma Grow(hs: Headers, g: H256, x: Header)
    requires IsTree(hs, g) && x.hash !in hs && FitsOn(hs, x)
    ensures IsTree(hs[x.hash := x], g) && SubMap(hs, hs[x.hash := x])
    ensures Path(hs[x.hash := x], g, x.hash) == Path(hs, g, x.parent) + [x.hash]
    ensures TotalScore(hs[x.hash := x], g, x.hash) == TotalScore(hs, g, x.parent) + x.score
  {
    var hs' := hs[x.hash := x];
    forall h | h in hs' && h != g ensures FitsOn(hs', hs'[h]) {
      assert h in hs ==> FitsOn(hs, hs[h]);
    }
    SubTree(hs, hs', g, x.parent);
  }
}
