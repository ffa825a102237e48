/** Routes between headers and what an insertion does to the canonical branch
    (core/src/blockchain/route.rs, core/src/blockchain/block_info.rs). */
module Route {
  import opened Prelude
  import opened HeaderTree

  datatype TreeRoute = TreeRoute(ancestor: H256, enacted: seq<H256>, retracted: seq<H256>)

  /** The branches `p` and `q` agree on their first `k` headers and then part. */
  ghost predicate PartAt(p: seq<H256>, q: seq<H256>, k: nat) {
    && k <= |p| && k <= |q|
    && p[..k] == q[..k]
    && (k < |p| && k < |q| ==> p[k] != q[k])
  }

  /** `r` leaves the branch `p` where it parts with `q`: the retracted hashes run from the top of
      `p` down to there, the enacted ones from there up to the top of `q`. */
  ghost predicate RouteBetween(p: seq<H256>, q: seq<H256>, k: nat, r: TreeRoute) {
    && k > 0 && PartAt(p, q, k)
    && p[k - 1] == r.ancestor
    && r.retracted == Reverse(p[k..])
    && r.enacted == q[k..]
  }

  ghost predicate IsRoute(hs: Headers, g: H256, from: H256, to: H256, r: TreeRoute)
    requires IsTree(hs, g) && from in hs && to in hs
  {
    r.ancestor in hs && RouteBetween(Path(hs, g, from), Path(hs, g, to), hs[r.ancestor].number + 1, r)
  }

  /** The header where two branches part is their deepest common ancestor. */
  lemma PartAtDeepest(hs: Headers, g: H256, a: H256, b: H256, k: nat, c: H256)
    requires IsTree(hs, g) && a in hs && b in hs && k > 0
    requires PartAt(Path(hs, g, a), Path(hs, g, b), k)
    ensures Path(hs, g, a)[k - 1] in hs
    ensures c in Path(hs, g, a) && c in Path(hs, g, b) <==> c in Path(hs, g, Path(hs, g, a)[k - 1])
  {
    var p, q := Path(hs, g, a), Path(hs, g, b);
    PathPrefix(hs, g, a, k - 1);
    if c in p && c !in p[..k] {
      var i :| k <= i < |p| && p[i] == c;
      PartedBranches(hs, g, a, b, k, i);
    }
  }

  /** How the best header or block is changed by an insertion. */
  datatype BestChanged<+B> =
    | Unchanged
    | CanonChainAppended(best: B)
    | BranchBecomingCanonChain(best: B, route: TreeRoute)

  /** Fork choice: `x` takes over from `best` exactly when its total score is strictly higher,
      and the change says how the branch of `best` turns into the branch of `x`. */
  ghost predicate IsChange<B>(hs: Headers, g: H256, best: H256, x: Header, b: B, change: BestChanged<B>)
    requires IsTree(hs, g) && best in hs && x.parent in hs
  {
    if TotalScore(hs, g, x.parent) + x.score <= TotalScore(hs, g, best) then change.Unchanged?
    else match change
         case Unchanged => false
         case CanonChainAppended(b') => b' == b && x.parent == best
         case BranchBecomingCanonChain(b', r) =>
           b' == b && IsRoute(hs, g, best, x.parent, r) && r.retracted != []
  }

  datatype ImportRoute = ImportRoute(retracted: seq<H256>, enacted: seq<H256>, omitted: seq<H256>)

  const NO_IMPORT := ImportRoute([], [], [])

  function NewImportRoute<B>(hash: H256, change: BestChanged<B>): ImportRoute {
    match change
    case Unchanged => ImportRoute([], [], [hash])
    case CanonChainAppended(_) => ImportRoute([], [hash], [])
    case BranchBecomingCanonChain(_, r) => ImportRoute(r.retracted, r.enacted + [hash], [])
  }

  /** The route turns the branch `p` into the branch `q`: it retracts, from the top, exactly what
      only `p` has and enacts, from the bottom, exactly what only `q` has. */
  ghost predicate Turns(route: ImportRoute, p: seq<H256>, q: seq<H256>) {
    exists k: nat :: TurnsAt(route, p, q, k)
  }

  ghost predicate TurnsAt(route: ImportRoute, p: seq<H256>, q: seq<H256>, k: nat) {
    && k <= |p| && k <= |q|
    && p[..k] == q[..k]
    && route.retracted == Reverse(p[k..])
    && route.enacted == q[k..]
    && (forall h :: h in p[k..] ==> h !in q)
    && (forall h :: h in q[k..] ==> h !in p)
  }

  /** The import route of an insertion turns the old canonical branch into the new one. `hs` is the
      tree that the change was computed in, `hs'` one that also holds the new header. */
  lemma ImportRouteTurns<B>(hs: Headers, hs': Headers, g: H256, best: H256, x: Header, b: B, change: BestChanged<B>)
    requires IsTree(hs, g) && best in hs && x.parent in hs
    requires IsTree(hs', g) && SubMap(hs, hs') && x.hash in hs' && hs'[x.hash] == x
    requires x.hash !in Path(hs, g, best)
    requires IsChange(hs, g, best, x, b, change)
    ensures Turns(NewImportRoute(x.hash, change), Path(hs, g, best),
                  Path(hs', g, if change.Unchanged? then best else x.hash))
  {
    var route := NewImportRoute(x.hash, change);
    SubTree(hs, hs', g, best);
    SubTree(hs, hs', g, x.parent);
    var p, q := Path(hs, g, best), Path(hs, g, x.parent);
    assert x.hash != g;
    assert Path(hs', g, x.hash) == q + [x.hash];
    match change {
      case Unchanged =>
        assert TurnsAt(route, p, p, |p|);
      case CanonChainAppended(_) =>
        assert TurnsAt(route, p, p + [x.hash], |p|);
      case BranchBecomingCanonChain(_, r) =>
        BranchTurns(hs', g, best, x, hs[r.ancestor].number + 1);
    }
  }

  lemma BranchTurns(hs: Headers, g: H256, best: H256, x: Header, k: nat)
    requires IsTree(hs, g) && best in hs && x.hash in hs && hs[x.hash] == x && x.hash != g
    requires x.parent in hs && x.hash !in Path(hs, g, best)
    requires k < |Path(hs, g, best)| && PartAt(Path(hs, g, best), Path(hs, g, x.parent), k)
    ensures TurnsAt(ImportRoute(Reverse(Path(hs, g, best)[k..]), Path(hs, g, x.parent)[k..] + [x.hash], []),
                    Path(hs, g, best), Path(hs, g, x.hash), k)
  {
    var p, q, q' := Path(hs, g, best), Path(hs, g, x.parent), Path(hs, g, x.hash);
    assert q' == q + [x.hash];
    assert q'[k..] == q[k..] + [x.hash];
    assert q'[..k] == q[..k];
    assert p[k] != q'[k];
    TurnsOnto(hs, g, best, x.hash, k);
  }

  lemma TurnsOnto(hs: Headers, g: H256, a: H256, b: H256, k: nat)
    requires IsTree(hs, g) && a in hs && b in hs
    requires k <= hs[a].number && k <= hs[b].number && Path(hs, g, a)[k] != Path(hs, g, b)[k]
    ensures forall h :: h in Path(hs, g, a)[k..] ==> h !in Path(hs, g, b)
    ensures forall h :: h in Path(hs, g, b)[k..] ==> h !in Path(hs, g, a)
  {
    forall i | k <= i <= hs[a].number ensures Path(hs, g, a)[i] !in Path(hs, g, b) {
      PartedBranches(hs, g, a, b, k, i);
    }
    forall i | k <= i <= hs[b].number ensures Path(hs, g, b)[i] !in Path(hs, g, a) {
      PartedBranches(hs, g, b, a, k, i);
    }
  }
}
