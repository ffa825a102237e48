/** Importing batches of headers and blocks, and folding the routes of their insertions
    (core/src/client/importer.rs). */
module Importer {
  import opened Prelude
  import opened Database
  import opened HeaderTree
  import opened Route
  import BodyDB
  import BC = BlockChain

  /** The last word on every block that some route mentions: true for enacted, false for retracted. */
  function Verdicts(routes: seq<ImportRoute>): map<H256, bool> {
    if routes == [] then map[]
    else
      var route := routes[|routes| - 1];
      Marked(Marked(Verdicts(routes[..|routes| - 1]), route.enacted, true), route.retracted, false)
  }

  function Marked(m: map<H256, bool>, hashes: seq<H256>, verdict: bool): (r: map<H256, bool>)
    ensures forall h :: h in r <==> h in m || h in hashes
    ensures forall h :: h in r ==> r[h] == if h in hashes then verdict else m[h]
  {
    map h | h in m.Keys + (set h | h in hashes) :: if h in hashes then verdict else m[h]
  }

  /** Consecutive insertions: every route turns one canonical branch into the next. */
  ghost predicate Consecutive(routes: seq<ImportRoute>, branches: seq<seq<H256>>) {
    && |branches| == |routes| + 1
    && forall i :: 0 <= i < |routes| ==> Turns(routes[i], branches[i], branches[i + 1])
  }

  /** One route moves exactly its own blocks on or off the canonical branch. */
  lemma OneRoute(route: ImportRoute, p: seq<H256>, q: seq<H256>, h: H256)
    requires Turns(route, p, q)
    ensures h in route.enacted ==> h in q && h !in p && h !in route.retracted
    ensures h in route.retracted ==> h in p && h !in q
    ensures h !in route.enacted && h !in route.retracted ==> (h in p <==> h in q)
  {
    var k: nat :| TurnsAt(route, p, q, k);
    assert p == p[..k] + p[k..] && q == q[..k] + q[k..];
    if h in route.retracted {
      var i :| 0 <= i < |route.retracted| && route.retracted[i] == h;
      assert h in p[k..];
    }
    if h in p[k..] {
      var i :| 0 <= i < |p[k..]| && p[k..][i] == h;
      assert route.retracted[|p[k..]| - 1 - i] == h;
    }
  }

  /** After any number of insertions, a block is canonical exactly when the fold enacted it, or when
      it was canonical before and the fold did not retract it. */
  lemma {:induction false} FoldIsCanonical(routes: seq<ImportRoute>, branches: seq<seq<H256>>, h: H256)
    requires Consecutive(routes, branches)
    ensures h in branches[|routes|] <==>
              if h in Verdicts(routes) then Verdicts(routes)[h] else h in branches[0]
  {
    if routes != [] {
      var n := |routes| - 1;
      FoldIsCanonical(routes[..n], branches[..n + 1], h);
      OneRoute(routes[n], branches[n], branches[n + 1], h);
    }
  }

  /** Splits the blocks into those finally enacted and those finally retracted. */
  method CalculateEnactedRetracted(routes: seq<ImportRoute>) returns (enacted: seq<H256>, retracted: seq<H256>)
    ensures forall h :: h in enacted <==> h in Verdicts(routes) && Verdicts(routes)[h]
    ensures forall h :: h in retracted <==> h in Verdicts(routes) && !Verdicts(routes)[h]
    ensures forall i, j :: 0 <= i < j < |enacted| ==> enacted[i] != enacted[j]
    ensures forall i, j :: 0 <= i < j < |retracted| ==> retracted[i] != retracted[j]
  {
    var verdicts: map<H256, bool> := map[];
    for i := 0 to |routes|
      invariant verdicts == Verdicts(routes[..i])
    {
      assert routes[..i + 1][..i] == routes[..i];
      verdicts := Mark(verdicts, routes[i].enacted, true);
      verdicts := Mark(verdicts, routes[i].retracted, false);
    }
    assert routes[..|routes|] == routes;
    enacted, retracted := Partition(verdicts);
  }

  lemma MarkedPush(m: map<H256, bool>, hashes: seq<H256>, h: H256, verdict: bool)
    ensures Marked(m, hashes + [h], verdict) == Marked(m, hashes, verdict)[h := verdict]
  {
  }

  method Mark(m: map<H256, bool>, hashes: seq<H256>, verdict: bool) returns (r: map<H256, bool>)
    ensures r == Marked(m, hashes, verdict)
  {
    hide Marked;
    r := m;
    assert Marked(m, hashes[..0], verdict) == m;
    for i := 0 to |hashes|
      invariant r == Marked(m, hashes[..i], verdict)
    {
      assert hashes[..i + 1] == hashes[..i] + [hashes[i]];
      MarkedPush(m, hashes[..i], hashes[i], verdict);
      r := r[hashes[i] := verdict];
    }
    assert hashes[..|hashes|] == hashes;
  }

  method Partition(verdicts: map<H256, bool>) returns (enacted: seq<H256>, retracted: seq<H256>)
    ensures forall h :: h in enacted <==> h in verdicts && verdicts[h]
    ensures forall h :: h in retracted <==> h in verdicts && !verdicts[h]
    ensures forall i, j :: 0 <= i < j < |enacted| ==> enacted[i] != enacted[j]
    ensures forall i, j :: 0 <= i < j < |retracted| ==> retracted[i] != retracted[j]
  {
    enacted, retracted := [], [];
    var rest := verdicts.Keys;
    while rest != {}
      invariant rest <= verdicts.Keys
      invariant forall h :: h in enacted <==> h in verdicts && h !in rest && verdicts[h]
      invariant forall h :: h in retracted <==> h in verdicts && h !in rest && !verdicts[h]
      invariant forall i, j :: 0 <= i < j < |enacted| ==> enacted[i] != enacted[j]
      invariant forall i, j :: 0 <= i < j < |retracted| ==> retracted[i] != retracted[j]
      decreases |rest|
    {
      var h :| h in rest;
      if verdicts[h] {
        enacted := enacted + [h];
      } else {
        retracted := retracted + [h];
      }
      rest := rest - {h};
    }
  }

  /** What a batch did to the canonical branch. */
  ghost predicate Accounts(before: seq<H256>, after: seq<H256>, enacted: seq<H256>, retracted: seq<H256>) {
    && (forall h :: h in after <==> h in enacted || (h in before && h !in retracted))
    && (forall h :: h in enacted ==> h !in retracted)
  }

  lemma OneMore(routes: seq<ImportRoute>, branches: seq<seq<H256>>, route: ImportRoute, branch: seq<H256>)
    requires Consecutive(routes, branches) && Turns(route, branches[|routes|], branch)
    ensures Consecutive(routes + [route], branches + [branch])
  {
  }

  lemma FoldAccounts(routes: seq<ImportRoute>, branches: seq<seq<H256>>, enacted: seq<H256>, retracted: seq<H256>)
    requires Consecutive(routes, branches)
    requires forall h :: h in enacted <==> h in Verdicts(routes) && Verdicts(routes)[h]
    requires forall h :: h in retracted <==> h in Verdicts(routes) && !Verdicts(routes)[h]
    ensures Accounts(branches[0], branches[|routes|], enacted, retracted)
  {
    forall h ensures h in branches[|routes|] <==> h in enacted || (h in branches[0] && h !in retracted) {
      FoldIsCanonical(routes, branches, h);
    }
  }

  // ----- a batch of headers -----

  type HeaderCheck = (Header, Header) -> bool

  /** The check compares a header with its parent, and accepts only headers that may stand on it. */
  ghost predicate SoundCheck(check: HeaderCheck) {
    forall x: Header, parent: Header :: check(x, parent) ==> x.number == parent.number + 1 && x.score > 0 && x.number < NUMBER_LIMIT
  }

  /** How far an import of headers has come. */
  datatype HeaderImport = HeaderImport(headers: Headers, bad: set<H256>, imported: seq<H256>)

  predicate HeaderRefused(p: HeaderImport, x: Header, check: HeaderCheck) {
    || x.hash in p.bad || x.parent in p.bad
    || (x.parent in p.headers && x.hash !in p.headers && !check(x, p.headers[x.parent]))
  }

  /** The parent of a header that is not bad is unknown: the import panics. */
  predicate IsOrphan(p: HeaderImport, x: Header) { x.hash !in p.bad && x.parent !in p.bad && x.parent !in p.headers }

  function HeaderStep(p: HeaderImport, x: Header, check: HeaderCheck): HeaderImport {
    if HeaderRefused(p, x, check) then p.(bad := p.bad + {x.hash})
    else if x.hash in p.headers then p
    else p.(headers := p.headers[x.hash := x], imported := p.imported + [x.hash])
  }

  function HeaderFold(p: HeaderImport, xs: seq<Header>, check: HeaderCheck): HeaderImport {
    if xs == [] then p else HeaderStep(HeaderFold(p, xs[..|xs| - 1], check), xs[|xs| - 1], check)
  }

  lemma HeaderFoldPush(p: HeaderImport, xs: seq<Header>, i: nat, check: HeaderCheck)
    requires i < |xs|
    ensures HeaderFold(p, xs[..i + 1], check) == HeaderStep(HeaderFold(p, xs[..i], check), xs[i], check)
  {
    assert xs[..i + 1][..i] == xs[..i];
  }

  ghost predicate OrphanAt(p: HeaderImport, xs: seq<Header>, i: nat, check: HeaderCheck)
    requires i < |xs|
  {
    IsOrphan(HeaderFold(p, xs[..i], check), xs[i])
  }

  ghost predicate HasOrphan(p: HeaderImport, xs: seq<Header>, check: HeaderCheck) {
    exists i :: 0 <= i < |xs| && OrphanAt(p, xs, i, check)
  }

  /** A header that has been looked at is stored or bad, and stays so. */
  lemma {:induction false} LookedAt(p: HeaderImport, xs: seq<Header>, n: nat, check: HeaderCheck)
    requires n <= |xs|
    ensures var q := HeaderFold(p, xs[..n], check);
            && (forall i :: 0 <= i < n ==> xs[i].hash in q.headers || xs[i].hash in q.bad)
            && p.headers.Keys <= q.headers.Keys && p.bad <= q.bad
  {
    if n > 0 {
      LookedAt(p, xs, n - 1, check);
      HeaderFoldPush(p, xs, n - 1, check);
    }
  }

  /** A batch in which every header stands on a stored one or on an earlier one of the batch does not panic, whatever the
      check says. */
  lemma NoOrphans(p: HeaderImport, xs: seq<Header>, check: HeaderCheck)
    requires forall i :: 0 <= i < |xs| ==> xs[i].parent in p.headers || exists j :: 0 <= j < i && xs[j].hash == xs[i].parent
    ensures !HasOrphan(p, xs, check)
  {
    forall i | 0 <= i < |xs| ensures !OrphanAt(p, xs, i, check) {
      LookedAt(p, xs, i, check);
    }
  }

  /** Header i of the batch is bad: its hash or its parent is, or it is new and fails the check against its parent. */
  ghost predicate BadAt(p: HeaderImport, xs: seq<Header>, i: nat, check: HeaderCheck)
    requires i < |xs|
  {
    var q, x := HeaderFold(p, xs[..i], check), xs[i];
    || x.hash in q.bad || x.parent in q.bad
    || (x.hash !in q.headers && x.parent in q.headers && !check(x, q.headers[x.parent]))
  }

  /** Header i of the batch is new and passes the check against its parent, which is not bad. */
  ghost predicate NewAt(p: HeaderImport, xs: seq<Header>, i: nat, check: HeaderCheck)
    requires i < |xs|
  {
    var q, x := HeaderFold(p, xs[..i], check), xs[i];
    && x.hash !in q.bad && x.parent !in q.bad
    && x.hash !in q.headers && x.parent in q.headers && check(x, q.headers[x.parent])
  }

  /** Exactly the bad headers of the batch are reported bad, and exactly the new ones that pass are imported and stored. */
  lemma {:induction false} BadOrImported(p: HeaderImport, xs: seq<Header>, n: nat, check: HeaderCheck, h: H256)
    requires n <= |xs| && forall i :: 0 <= i < n ==> !OrphanAt(p, xs, i, check)
    ensures var q := HeaderFold(p, xs[..n], check);
            && (h in q.bad <==> h in p.bad || exists i :: 0 <= i < n && xs[i].hash == h && BadAt(p, xs, i, check))
            && (h in q.imported <==> h in p.imported || exists i :: 0 <= i < n && xs[i].hash == h && NewAt(p, xs, i, check))
            && (h in q.headers <==> h in p.headers || exists i :: 0 <= i < n && xs[i].hash == h && NewAt(p, xs, i, check))
  {
    hide BadAt, NewAt, HeaderStep, OrphanAt;
    if n > 0 {
      var i := n - 1;
      BadOrImported(p, xs, i, check, h);
      HeaderFoldPush(p, xs, i, check);
      assert !OrphanAt(p, xs, i, check);
      BadStep(p, xs, i, check);
    }
  }

  lemma BadStep(p: HeaderImport, xs: seq<Header>, i: nat, check: HeaderCheck)
    requires i < |xs| && !OrphanAt(p, xs, i, check)
    ensures var q := HeaderFold(p, xs[..i], check);
            var q' := HeaderStep(q, xs[i], check);
            && q'.bad == (if BadAt(p, xs, i, check) then q.bad + {xs[i].hash} else q.bad)
            && q'.imported == (if NewAt(p, xs, i, check) then q.imported + [xs[i].hash] else q.imported)
            && q'.headers == (if NewAt(p, xs, i, check) then q.headers[xs[i].hash := xs[i]] else q.headers)
  {
  }

  /** Whatever stands on a bad header of the batch is bad. */
  lemma BadSpreads(p: HeaderImport, xs: seq<Header>, i: nat, j: nat, check: HeaderCheck)
    requires i < j < |xs| && !HasOrphan(p, xs, check) && BadAt(p, xs, i, check) && xs[j].parent == xs[i].hash
    ensures BadAt(p, xs, j, check) && xs[j].hash in HeaderFold(p, xs, check).bad
  {
    forall k | 0 <= k < |xs| ensures !OrphanAt(p, xs, k, check) {
    }
    BadOrImported(p, xs, j, check, xs[i].hash);
    BadOrImported(p, xs, |xs|, check, xs[j].hash);
    assert xs[..|xs|] == xs;
  }

  /** Imports a batch of headers one by one, up to the first whose parent is unknown. Headers that fail the check,
      and those that stand on them, are bad; the headers reported as enacted and retracted account for the whole
      change of the canonical branch of headers. */
  method ImportHeaders(chain: BC.BlockChain, headers: seq<Header>, check: HeaderCheck)
      returns (panicked: bool, imported: seq<H256>, bad: set<H256>, enacted: seq<H256>, retracted: seq<H256>)
    requires chain.Valid() && SoundCheck(check)
    modifies chain, chain.db, chain.headerchain, chain.bodyDB
    ensures var start := HeaderImport(old(chain.db.store).head.headers, {}, []);
            && (panicked <==> HasOrphan(start, headers, check))
            && (!panicked ==> HeaderImport(chain.db.store.head.headers, bad, imported) == HeaderFold(start, headers, check))
    ensures chain.bestBlockHash == old(chain.bestBlockHash) && chain.db.store.body == old(chain.db.store).body
    ensures SubMap(old(chain.db.store).head.headers, chain.db.store.head.headers)
    ensures IsTree(old(chain.db.store).head.headers, chain.genesis) && IsTree(chain.db.store.head.headers, chain.genesis)
    ensures old(chain.headerchain.bestHeaderHash) in old(chain.db.store).head.headers
    ensures chain.headerchain.bestHeaderHash in chain.db.store.head.headers
    ensures !panicked ==>
              Accounts(Path(old(chain.db.store).head.headers, chain.genesis, old(chain.headerchain.bestHeaderHash)),
                       Path(chain.db.store.head.headers, chain.genesis, chain.headerchain.bestHeaderHash), enacted, retracted)
    ensures chain.Valid()
  {
    hide BC.BlockChain.Valid, Turns, SoundCheck, IsTree, Path, Accounts, HeaderFold, SubMap, FitsOn;
    panicked, imported, bad, enacted, retracted := false, [], {}, [], [];
    var routes: seq<ImportRoute> := [];
    ghost var start := HeaderImport(chain.db.store.head.headers, {}, []);
    HeadersOf(chain);
    NoHeaders(start, headers, check);
    ghost var branches := [Path(chain.db.store.head.headers, chain.genesis, chain.headerchain.bestHeaderHash)];
    for i := 0 to |headers|
      invariant IsTree(chain.db.store.head.headers, chain.genesis) && chain.headerchain.bestHeaderHash in chain.db.store.head.headers
      invariant HeaderImport(chain.db.store.head.headers, bad, imported) == HeaderFold(start, headers[..i], check)
      invariant forall j :: 0 <= j < i ==> !OrphanAt(start, headers, j, check)
      invariant chain.bestBlockHash == old(chain.bestBlockHash) && chain.db.store.body == old(chain.db.store).body
      invariant SubMap(start.headers, chain.db.store.head.headers)
      invariant Consecutive(routes, branches)
      invariant branches[0] == old(Path(chain.db.store.head.headers, chain.genesis, chain.headerchain.bestHeaderHash))
      invariant branches[|routes|] == Path(chain.db.store.head.headers, chain.genesis, chain.headerchain.bestHeaderHash)
      invariant chain.Valid()
    {
      var x := headers[i];
      ghost var hs := chain.db.store.head.headers;
      HeaderFoldPush(start, headers, i, check);
      if x.hash in bad || x.parent in bad {
        bad := bad + {x.hash};
      } else if x.parent !in chain.db.store.head.headers {
        assert OrphanAt(start, headers, i, check);
        return true, imported, bad, [], [];
      } else if x.hash !in chain.db.store.head.headers {
        if check(x, chain.db.store.head.headers[x.parent]) {
          Checked(check, hs, x);
          imported := imported + [x.hash];
          var route := chain.ImportHeader(x);
          HeadersOf(chain);
          SubMapMore(start.headers, hs, x);
          OneMore(routes, branches, route, Path(chain.db.store.head.headers, chain.genesis, chain.headerchain.bestHeaderHash));
          routes := routes + [route];
          branches := branches + [Path(chain.db.store.head.headers, chain.genesis, chain.headerchain.bestHeaderHash)];
        } else {
          bad := bad + {x.hash};
        }
      }
    }
    assert headers[..|headers|] == headers;
    enacted, retracted := CalculateEnactedRetracted(routes);
    FoldAccounts(routes, branches, enacted, retracted);
  }

  lemma HeadersOf(chain: BC.BlockChain)
    requires chain.Valid()
    ensures IsTree(chain.db.store.head.headers, chain.genesis) && chain.headerchain.bestHeaderHash in chain.db.store.head.headers
    ensures SubMap(chain.db.store.head.headers, chain.db.store.head.headers)
  {
    chain.headerchain.Unpack();
  }

  lemma NoHeaders(p: HeaderImport, xs: seq<Header>, check: HeaderCheck)
    ensures HeaderFold(p, xs[..0], check) == p
  {
  }

  lemma Checked(check: HeaderCheck, hs: Headers, x: Header)
    requires SoundCheck(check) && x.parent in hs && check(x, hs[x.parent])
    ensures FitsOn(hs, x)
  {
  }

  lemma SubMapMore(hs0: Headers, hs: Headers, x: Header)
    requires SubMap(hs0, hs) && x.hash !in hs
    ensures SubMap(hs0, hs[x.hash := x])
  {
  }

  // ----- a batch of blocks -----

  type BlockVerifier = (Headers, map<H256, Body>, BodyDB.Block) -> bool

  /** Block verification looks at the stored chain, and accepts only blocks that fit on it. */
  ghost predicate SoundVerifier(verify: BlockVerifier, g: H256) {
    forall hs: Headers, bodies: map<H256, Body>, b: BodyDB.Block :: verify(hs, bodies, b) && BC.IsSubtree(hs, g, bodies) ==>
      BC.BlockFits(hs, g, bodies, b)
  }

  /** How far an import of blocks has come. */
  datatype BlockImport = BlockImport(headers: Headers, bodies: map<H256, Body>, invalid: set<H256>, imported: seq<H256>)

  /** A block is refused if its parent was, or if verification fails. */
  predicate BlockRefused(p: BlockImport, b: BodyDB.Block, verify: BlockVerifier) {
    b.header.parent in p.invalid || !verify(p.headers, p.bodies, b)
  }

  function BlockStep(p: BlockImport, b: BodyDB.Block, verify: BlockVerifier): BlockImport {
    var h := b.header.hash;
    if BlockRefused(p, b, verify) then p.(invalid := p.invalid + {h})
    else if h in p.bodies then p.(imported := p.imported + [h])
    else BlockImport(p.headers[h := b.header], p.bodies[h := b.body], p.invalid, p.imported + [h])
  }

  function BlockFold(p: BlockImport, bs: seq<BodyDB.Block>, verify: BlockVerifier): BlockImport {
    if bs == [] then p else BlockStep(BlockFold(p, bs[..|bs| - 1], verify), bs[|bs| - 1], verify)
  }

  lemma BlockFoldPush(p: BlockImport, bs: seq<BodyDB.Block>, i: nat, verify: BlockVerifier)
    requires i < |bs|
    ensures BlockFold(p, bs[..i + 1], verify) == BlockStep(BlockFold(p, bs[..i], verify), bs[i], verify)
  {
    assert bs[..i + 1][..i] == bs[..i];
  }

  /** Block i of the batch stands on an invalid one or fails verification over what is stored then. */
  predicate RefusedAt(p: BlockImport, bs: seq<BodyDB.Block>, i: nat, verify: BlockVerifier)
    requires i < |bs|
  {
    var q := BlockFold(p, bs[..i], verify);
    bs[i].header.parent in q.invalid || !verify(q.headers, q.bodies, bs[i])
  }

  /** The blocks of the batch that are refused are invalid, and no others; the rest is imported. */
  lemma {:induction false} RefusedOrImported(p: BlockImport, bs: seq<BodyDB.Block>, n: nat, verify: BlockVerifier, h: H256)
    requires n <= |bs|
    ensures h in BlockFold(p, bs[..n], verify).invalid <==>
              h in p.invalid || exists i :: 0 <= i < n && bs[i].header.hash == h && RefusedAt(p, bs, i, verify)
    ensures h in BlockFold(p, bs[..n], verify).imported <==>
              h in p.imported || exists i :: 0 <= i < n && bs[i].header.hash == h && !RefusedAt(p, bs, i, verify)
    ensures h in BlockFold(p, bs[..n], verify).bodies <==>
              h in p.bodies || exists i :: 0 <= i < n && bs[i].header.hash == h && !RefusedAt(p, bs, i, verify)
  {
    hide RefusedAt, BlockStep;
    if n > 0 {
      RefusedOrImported(p, bs, n - 1, verify, h);
      BlockFoldPush(p, bs, n - 1, verify);
      RefusedStep(p, bs, n - 1, verify);
    }
  }

  lemma RefusedStep(p: BlockImport, bs: seq<BodyDB.Block>, i: nat, verify: BlockVerifier)
    requires i < |bs|
    ensures var q, h := BlockFold(p, bs[..i], verify), bs[i].header.hash;
            var q' := BlockStep(q, bs[i], verify);
            && q'.invalid == (if RefusedAt(p, bs, i, verify) then q.invalid + {h} else q.invalid)
            && q'.imported == (if RefusedAt(p, bs, i, verify) then q.imported else q.imported + [h])
            && q'.bodies.Keys == (if RefusedAt(p, bs, i, verify) then q.bodies.Keys else q.bodies.Keys + {h})
  {
  }

  /** Whatever stands on an invalid block of the batch is invalid. */
  lemma InvalidSpreads(p: BlockImport, bs: seq<BodyDB.Block>, i: nat, j: nat, verify: BlockVerifier)
    requires i < j < |bs| && RefusedAt(p, bs, i, verify) && bs[j].header.parent == bs[i].header.hash
    ensures RefusedAt(p, bs, j, verify) && bs[j].header.hash in BlockFold(p, bs, verify).invalid
  {
    RefusedOrImported(p, bs, j, verify, bs[i].header.hash);
    RefusedOrImported(p, bs, |bs|, verify, bs[j].header.hash);
    assert bs[..|bs|] == bs;
  }

  /** Imports a batch of blocks: first all their headers, then the blocks one by one. Blocks that fail verification,
      and those that stand on them, are invalid; the blocks reported as enacted and retracted account for the whole
      change of the canonical branch. */
  method ImportVerifiedBlocks(chain: BC.BlockChain, blocks: seq<BodyDB.Block>, check: HeaderCheck, verify: BlockVerifier)
      returns (panicked: bool, imported: seq<H256>, invalid: set<H256>, enacted: seq<H256>, retracted: seq<H256>)
    requires chain.Valid() && SoundCheck(check) && SoundVerifier(verify, chain.genesis)
    modifies chain, chain.db, chain.headerchain, chain.bodyDB
    ensures var headers := HeaderImport(old(chain.db.store).head.headers, {}, []);
            && (panicked <==> HasOrphan(headers, HeadersIn(blocks), check))
            && (!panicked ==>
                  BlockImport(chain.db.store.head.headers, chain.db.store.body.bodies, invalid, imported)
                  == BlockFold(BlockImport(HeaderFold(headers, HeadersIn(blocks), check).headers, old(chain.db.store).body.bodies, {}, []),
                               blocks, verify))
    ensures IsTree(old(chain.db.store).head.headers, chain.genesis) && IsTree(chain.db.store.head.headers, chain.genesis)
    ensures old(chain.bestBlockHash) in old(chain.db.store).head.headers && chain.bestBlockHash in chain.db.store.head.headers
    ensures !panicked ==> Accounts(old(chain.CanonPath()), chain.CanonPath(), enacted, retracted)
    ensures chain.Valid()
  {
    hide BC.BlockChain.Valid, BC.IsSubtree, BC.BlockFits, SoundVerifier, SoundCheck, IsTree, Path, Accounts, BC.IsHeaviestBlock,
         SubMap, HeaderFold, BlockFold, HasOrphan, Turns;
    chain.Unpack();
    imported, invalid, enacted, retracted := [], {}, [], [];
    ghost var hs, best := chain.db.store.head.headers, chain.bestBlockHash;
    var headersImported, bad, headersEnacted, headersRetracted;
    panicked, headersImported, bad, headersEnacted, headersRetracted := ImportHeaders(chain, HeadersIn(blocks), check);
    chain.Unpack();
    if panicked {
      return;
    }
    SubTree(hs, chain.db.store.head.headers, chain.genesis, best);
    imported, invalid, enacted, retracted := ImportBodies(chain, blocks, verify);
  }

  function HeadersIn(blocks: seq<BodyDB.Block>): seq<Header> { seq(|blocks|, i requires 0 <= i < |blocks| => blocks[i].header) }

  method ImportBodies(chain: BC.BlockChain, blocks: seq<BodyDB.Block>, verify: BlockVerifier)
      returns (imported: seq<H256>, invalid: set<H256>, enacted: seq<H256>, retracted: seq<H256>)
    requires chain.Valid() && SoundVerifier(verify, chain.genesis)
    modifies chain, chain.db, chain.headerchain, chain.bodyDB
    ensures BlockImport(chain.db.store.head.headers, chain.db.store.body.bodies, invalid, imported)
         == BlockFold(BlockImport(old(chain.db.store).head.headers, old(chain.db.store).body.bodies, {}, []), blocks, verify)
    ensures IsTree(old(chain.db.store).head.headers, chain.genesis) && IsTree(chain.db.store.head.headers, chain.genesis)
    ensures old(chain.bestBlockHash) in old(chain.db.store).head.headers && chain.bestBlockHash in chain.db.store.head.headers
    ensures Accounts(old(chain.CanonPath()), chain.CanonPath(), enacted, retracted)
    ensures chain.Valid()
  {
    hide BC.BlockChain.Valid, BC.IsSubtree, BC.BlockFits, Turns, SoundVerifier, IsTree, Path, Accounts, BC.IsHeaviestBlock, SubMap,
         BlockFold;
    imported, invalid := [], {};
    var routes: seq<ImportRoute> := [];
    chain.Unpack();
    ghost var start := BlockImport(chain.db.store.head.headers, chain.db.store.body.bodies, {}, []);
    NoBlocks(start, blocks, verify);
    ghost var branches := [chain.CanonPath()];
    for i := 0 to |blocks|
      invariant IsTree(chain.db.store.head.headers, chain.genesis) && chain.bestBlockHash in chain.db.store.head.headers
      invariant BlockImport(chain.db.store.head.headers, chain.db.store.body.bodies, invalid, imported)
             == BlockFold(start, blocks[..i], verify)
      invariant Consecutive(routes, branches) && branches[0] == old(chain.CanonPath()) && branches[|routes|] == chain.CanonPath()
      invariant chain.Valid()
    {
      var block := blocks[i];
      BlockFoldPush(start, blocks, i, verify);
      if block.header.parent in invalid {
        invalid := invalid + {block.header.hash};
      } else if verify(chain.db.store.head.headers, chain.db.store.body.bodies, block) {
        chain.Unpack();
        Verified(verify, chain.db.store.head.headers, chain.db.store.body.bodies, chain.genesis, block);
        imported := imported + [block.header.hash];
        var route := chain.ImportBlock(block);
        chain.Unpack();
        OneMore(routes, branches, route, chain.CanonPath());
        routes, branches := routes + [route], branches + [chain.CanonPath()];
      } else {
        invalid := invalid + {block.header.hash};
      }
    }
    assert blocks[..|blocks|] == blocks;
    enacted, retracted := CalculateEnactedRetracted(routes);
    FoldAccounts(routes, branches, enacted, retracted);
  }

  lemma NoBlocks(p: BlockImport, bs: seq<BodyDB.Block>, verify: BlockVerifier)
    ensures BlockFold(p, bs[..0], verify) == p
  {
  }

  lemma Verified(verify: BlockVerifier, hs: Headers, bodies: map<H256, Body>, g: H256, b: BodyDB.Block)
    requires SoundVerifier(verify, g) && verify(hs, bodies, b) && BC.IsSubtree(hs, g, bodies)
    ensures BC.BlockFits(hs, g, bodies, b)
  {
  }
}
