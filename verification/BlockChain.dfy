/** The block chain: fork choice over blocks, on top of the header chain and the body database
    (core/src/blockchain/blockchain.rs, core/src/client/importer.rs). */
module BlockChain {
  import opened Prelude
  import opened HeaderTree
  import opened Database
  import opened Route
  import opened BodyIndex
  import opened BodyDB
  import HC = HeaderChain

  predicate ParentStored(hs: Headers, bodies: map<H256, Body>, h: H256)
    requires h in hs
  {
    hs[h].parent in bodies
  }

  /** Bodies are stored for a subtree of the headers that contains genesis. */
  ghost predicate IsSubtree(hs: Headers, g: H256, bodies: map<H256, Body>) {
    && IsTree(hs, g)
    && bodies.Keys <= hs.Keys && g in bodies
    && (forall h {:trigger ParentStored(hs, bodies, h)} :: h in bodies && h != g ==> ParentStored(hs, bodies, h))
  }

  lemma {:induction false} BranchStored(hs: Headers, g: H256, bodies: map<H256, Body>, h: H256)
    requires IsSubtree(hs, g, bodies) && h in bodies
    ensures forall b :: b in Path(hs, g, h) ==> b in bodies
    decreases hs[h].number
  {
    if h != g {
      assert FitsOn(hs, hs[h]) && ParentStored(hs, bodies, h);
      BranchStored(hs, g, bodies, hs[h].parent);
    }
  }

  /** The transactions of the branch of `h`, in chain order. Genesis is not indexed. */
  ghost function BranchEntries(hs: Headers, g: H256, bodies: map<H256, Body>, h: H256): seq<Entry>
    requires IsSubtree(hs, g, bodies) && h in bodies
  {
    BranchStored(hs, g, bodies, h);
    Entries(bodies, Path(hs, g, h)[1..])
  }

  /** `best` is a heaviest block among those with a body. */
  ghost predicate IsHeaviestBlock(hs: Headers, g: H256, bodies: map<H256, Body>, best: H256)
    requires IsSubtree(hs, g, bodies)
  {
    best in bodies && forall h {:trigger h in bodies} :: h in bodies ==> TotalScore(hs, g, h) <= TotalScore(hs, g, best)
  }

  /** No branch contains a transaction twice. */
  ghost predicate NoBranchRepeats(hs: Headers, g: H256, bodies: map<H256, Body>)
    requires IsSubtree(hs, g, bodies)
  {
    forall h {:trigger NoRepeat(BranchEntries(hs, g, bodies, h))} :: h in bodies ==> NoRepeat(BranchEntries(hs, g, bodies, h))
  }

  /** The indexes are those of the branch of `best`. */
  ghost predicate IndexesAgree(s: BodyColumns, es: seq<Entry>) {
    IsParcelIndex(s.parcels, es) && IsTrackerIndex(s.trackers, es)
  }

  ghost predicate StoreAgrees(hs: Headers, s: BodyColumns, g: H256, best: H256) {
    && IsSubtree(hs, g, s.bodies)
    && IsHeaviestBlock(hs, g, s.bodies, best)
    && NoBranchRepeats(hs, g, s.bodies)
    && IndexesAgree(s, BranchEntries(hs, g, s.bodies, best))
    && s.bestBlock == Some(best) && s.bestProposalBlock == Some(best)
  }

  /** `block` may be stored: its parent is, and it repeats no transaction of its branch. */
  ghost predicate BlockFits(hs: Headers, g: H256, bodies: map<H256, Body>, block: Block)
    requires IsSubtree(hs, g, bodies)
  {
    var x := block.header;
    && FitsOn(hs, x) && x.parent in bodies
    && (x.hash in hs ==> hs[x.hash] == x && x.hash != g)
    && NoRepeat(BranchEntries(hs, g, bodies, x.parent) + BlockEntries(x.hash, block.body))
  }

  // ----- growth of the stored subtree -----

  lemma SubtreeGrows(hs: Headers, hs': Headers, g: H256, bodies: map<H256, Body>, block: Block)
    requires IsSubtree(hs, g, bodies) && IsTree(hs', g) && SubMap(hs, hs')
    requires BlockFits(hs, g, bodies, block)
    requires block.header.hash in hs' && hs'[block.header.hash] == block.header
    ensures IsSubtree(hs', g, bodies[block.header.hash := block.body])
  {
    var bodies' := bodies[block.header.hash := block.body];
    forall h | h in bodies' && h != g ensures ParentStored(hs', bodies', h) {
      if h != block.header.hash {
        assert ParentStored(hs, bodies, h);
      }
    }
  }

  /** The branch of a stored block is untouched by a new block. */
  lemma BranchKept(hs: Headers, hs': Headers, g: H256, bodies: map<H256, Body>, bodies': map<H256, Body>, h: H256)
    requires IsSubtree(hs, g, bodies) && IsSubtree(hs', g, bodies') && SubMap(hs, hs') && SubMap(bodies, bodies')
    requires h in bodies
    ensures BranchEntries(hs', g, bodies', h) == BranchEntries(hs, g, bodies, h)
  {
    hide IsTree, FitsOn;
    SubTree(hs, hs', g, h);
    BranchStored(hs, g, bodies, h);
    var blocks := Path(hs, g, h)[1..];
    assert forall b :: b in blocks ==> b in Path(hs, g, h);
    EntriesGrow(bodies, bodies', blocks);
  }

  /** The branch of a new block is that of its parent, and then the block. */
  lemma BranchExtended(hs: Headers, hs': Headers, g: H256, bodies: map<H256, Body>, block: Block)
    requires IsSubtree(hs, g, bodies) && IsTree(hs', g) && SubMap(hs, hs')
    requires BlockFits(hs, g, bodies, block) && block.header.hash !in bodies
    requires block.header.hash in hs' && hs'[block.header.hash] == block.header
    requires IsSubtree(hs', g, bodies[block.header.hash := block.body])
    ensures BranchEntries(hs', g, bodies[block.header.hash := block.body], block.header.hash)
         == BranchEntries(hs, g, bodies, block.header.parent) + BlockEntries(block.header.hash, block.body)
  {
    var x, bodies' := block.header, bodies[block.header.hash := block.body];
    BranchKept(hs, hs', g, bodies, bodies', x.parent);
    assert x.hash != g;
    var q := Path(hs', g, x.parent);
    assert Path(hs', g, x.hash) == q + [x.hash];
    assert (q + [x.hash])[1..] == q[1..] + [x.hash];
    BranchStored(hs', g, bodies', x.hash);
    assert (q[1..] + [x.hash])[..|q| - 1] == q[1..];
  }

  lemma HeaviestKept(hs: Headers, hs': Headers, g: H256, bodies: map<H256, Body>, block: Block, best: H256)
    requires IsSubtree(hs, g, bodies) && IsTree(hs', g) && SubMap(hs, hs') && BlockFits(hs, g, bodies, block)
    requires block.header.hash in hs' && hs'[block.header.hash] == block.header
    requires IsSubtree(hs', g, bodies[block.header.hash := block.body]) && IsHeaviestBlock(hs, g, bodies, best)
    ensures IsHeaviestBlock(hs', g, bodies[block.header.hash := block.body],
                            if TotalScore(hs, g, block.header.parent) + block.header.score <= TotalScore(hs, g, best)
                            then best else block.header.hash)
  {
    var x := block.header;
    assert x.hash != g;
    forall h | h in bodies ensures TotalScore(hs', g, h) == TotalScore(hs, g, h) <= TotalScore(hs, g, best) {
      SubTree(hs, hs', g, h);
    }
    assert TotalScore(hs', g, x.hash) == TotalScore(hs', g, x.parent) + x.score;
  }

  lemma NoRepeatsKept(hs: Headers, hs': Headers, g: H256, bodies: map<H256, Body>, block: Block)
    requires IsSubtree(hs, g, bodies) && IsTree(hs', g) && SubMap(hs, hs')
    requires BlockFits(hs, g, bodies, block) && block.header.hash !in bodies
    requires block.header.hash in hs' && hs'[block.header.hash] == block.header
    requires IsSubtree(hs', g, bodies[block.header.hash := block.body]) && NoBranchRepeats(hs, g, bodies)
    ensures NoBranchRepeats(hs', g, bodies[block.header.hash := block.body])
  {
    hide IsTree, IsSubtree, BranchEntries, NoRepeat;
    var bodies' := bodies[block.header.hash := block.body];
    BranchExtended(hs, hs', g, bodies, block);
    forall h | h in bodies' ensures NoRepeat(BranchEntries(hs', g, bodies', h)) {
      if h in bodies {
        BranchKept(hs, hs', g, bodies, bodies', h);
        assert NoRepeat(BranchEntries(hs, g, bodies, h));
      }
    }
  }

  // ----- the indexes follow the best block -----

  lemma BranchNoOverlap(hs: Headers, g: H256, bodies: map<H256, Body>, h: H256)
    requires IsSubtree(hs, g, bodies) && h in bodies
    ensures NoOverlap(BranchEntries(hs, g, bodies, h))
  {
    PathDistinct(hs, g, h);
    BranchStored(hs, g, bodies, h);
    EntriesNoOverlap(bodies, Path(hs, g, h)[1..]);
  }

  /** Splits the entries of a branch at a block. */
  lemma BranchSplit(hs: Headers, g: H256, bodies: map<H256, Body>, h: H256, k: nat)
    requires IsSubtree(hs, g, bodies) && h in bodies && 1 <= k <= hs[h].number + 1
    ensures forall b :: b in Path(hs, g, h) ==> b in bodies
    ensures BranchEntries(hs, g, bodies, h) == Entries(bodies, Path(hs, g, h)[1..k]) + Entries(bodies, Path(hs, g, h)[k..])
  {
    var p := Path(hs, g, h);
    BranchStored(hs, g, bodies, h);
    assert p[1..] == p[1..k] + p[k..];
    EntriesConcat(bodies, p[1..k], p[k..]);
  }

  /** Where a change leaves the old branch: the entries up to there, and the retracted ones above. */
  lemma ChangeSplit(hs: Headers, g: H256, bodies: map<H256, Body>, block: Block, best: H256, change: BestChanged<Block>)
      returns (base: seq<Entry>, ret: seq<Entry>)
    requires IsSubtree(hs, g, bodies) && best in bodies && block.header.parent in bodies && !change.Unchanged?
    requires IsChange(hs, g, best, block.header, block, change)
    ensures BodiesStored(bodies, change)
    ensures BranchEntries(hs, g, bodies, best) == base + ret
    ensures forall e :: e in Retracted(bodies, change) <==> e in ret
    ensures BranchEntries(hs, g, bodies, block.header.parent) + BlockEntries(block.header.hash, block.body)
         == base + Enacted(bodies, change)
  {
    hide IsTree, BranchEntries, Path, BlockEntries;
    if change.CanonChainAppended? {
      base, ret := BranchEntries(hs, g, bodies, best), [];
      assert base + ret == base;
      assert Enacted(bodies, change) == BlockEntries(block.header.hash, block.body);
    } else {
      var k := hs[change.route.ancestor].number + 1;
      var p, q := Path(hs, g, best), Path(hs, g, block.header.parent);
      BranchSplit(hs, g, bodies, best, k);
      BranchSplit(hs, g, bodies, block.header.parent, k);
      base, ret := Entries(bodies, p[1..k]), Entries(bodies, p[k..]);
      assert p[1..k] == p[..k][1..] == q[..k][1..] == q[1..k];
      SameBlocks(bodies, p[k..]);
      assert base + (Entries(bodies, q[k..]) + BlockEntries(block.header.hash, block.body))
          == (base + Entries(bodies, q[k..])) + BlockEntries(block.header.hash, block.body);
    }
  }

  lemma SameBlocks(bodies: map<H256, Body>, blocks: seq<H256>)
    requires forall h :: h in blocks ==> h in bodies
    ensures forall h :: h in Reverse(blocks) ==> h in bodies
    ensures forall e :: e in Entries(bodies, Reverse(blocks)) <==> e in Entries(bodies, blocks)
  {
    var back := Reverse(blocks);
    forall h ensures h in back <==> h in blocks {
      if h in blocks {
        var i :| 0 <= i < |blocks| && blocks[i] == h;
        assert back[|blocks| - 1 - i] == h;
      }
    }
    forall e ensures e in Entries(bodies, back) <==> e in Entries(bodies, blocks) {
      EntriesMember(bodies, back, e);
      EntriesMember(bodies, blocks, e);
    }
  }

  /** Patching the indexes for a change of the best block gives those of the new best branch. */
  lemma IndexesTurn(hs: Headers, hs': Headers, g: H256, s: BodyColumns, block: Block, best: H256,
                    change: BestChanged<Block>, values: map<H256, Option<seq<Address>>>)
    requires StoreAgrees(hs, s, g, best) && IsTree(hs', g) && SubMap(hs, hs')
    requires BlockFits(hs, g, s.bodies, block) && block.header.hash !in s.bodies
    requires block.header.hash in hs' && hs'[block.header.hash] == block.header
    requires IsSubtree(hs', g, s.bodies[block.header.hash := block.body])
    requires IsChange(hs, g, best, block.header, block, change) && !change.Unchanged?
    requires BodiesStored(s.bodies, change)
    requires TrackerEntries(values, s.trackers, Retracted(s.bodies, change), Enacted(s.bodies, change))
    ensures IndexesAgree(Indexed(s, ParcelEntries(Retracted(s.bodies, change), Enacted(s.bodies, change)), values),
                         BranchEntries(hs', g, s.bodies[block.header.hash := block.body], block.header.hash))
  {
    hide IsTree, IsSubtree, TotalScore, BranchEntries, NoRepeat, NoOverlap, IsParcelIndex, IsTrackerIndex, IsChange,
         TrackerEntries, ParcelEntries, Patch, Retracted, Enacted, BlockEntries, BodiesStored;
    var base, ret := ChangeSplit(hs, g, s.bodies, block, best, change);
    BranchExtended(hs, hs', g, s.bodies, block);
    assert NoRepeat(BranchEntries(hs, g, s.bodies, best));
    BranchNoOverlap(hs, g, s.bodies, best);
    BranchNoOverlap(hs', g, s.bodies[block.header.hash := block.body], block.header.hash);
    ParcelTurns(base, ret, Retracted(s.bodies, change), Enacted(s.bodies, change), s.parcels);
    TrackerIndexTurns(base, ret, Retracted(s.bodies, change), Enacted(s.bodies, change), s.trackers, values);
  }

  lemma ExtendedNoOverlap(hs: Headers, g: H256, bodies: map<H256, Body>, h: H256, x: H256, body: Body)
    requires IsSubtree(hs, g, bodies) && h in bodies && x !in bodies
    ensures NoOverlap(BranchEntries(hs, g, bodies, h) + BlockEntries(x, body))
  {
    var es := BranchEntries(hs, g, bodies, h);
    BranchNoOverlap(hs, g, bodies, h);
    BranchStored(hs, g, bodies, h);
    var blocks := Path(hs, g, h)[1..];
    EntriesBlocks(bodies, blocks);
    forall i | 0 <= i < |es| ensures es[i].address.block != x {
      assert es[i] in es;
    }
  }

  lemma NoOverlapSuffix(a: seq<Entry>, b: seq<Entry>)
    requires NoOverlap(a + b)
    ensures NoOverlap(b)
  {
    forall i, j | 0 <= i < j < |b| ensures b[i].address != b[j].address {
      assert (a + b)[|a| + i] == b[i] && (a + b)[|a| + j] == b[j];
    }
  }

  /** What staging the index updates needs of a change. */
  lemma ChangeReadable(hs: Headers, g: H256, bodies: map<H256, Body>, block: Block, best: H256, change: BestChanged<Block>)
    requires IsSubtree(hs, g, bodies) && best in bodies && block.header.parent in bodies && block.header.hash !in bodies
    requires IsChange(hs, g, best, block.header, block, change)
    ensures BodiesStored(bodies, change)
    ensures NoOverlap(Retracted(bodies, change)) && NoOverlap(Enacted(bodies, change))
  {
    if !change.Unchanged? {
      hide IsTree, BranchEntries, BlockEntries, TotalScore, IsChange, Enacted, BodiesStored, NoOverlap;
      var base, ret := ChangeSplit(hs, g, bodies, block, best, change);
      ExtendedNoOverlap(hs, g, bodies, block.header.parent, block.header.hash, block.body);
      NoOverlapSuffix(base, Enacted(bodies, change));
      RetractedNoOverlap(hs, g, bodies, block, best, change);
    }
  }

  lemma RetractedNoOverlap(hs: Headers, g: H256, bodies: map<H256, Body>, block: Block, best: H256, change: BestChanged<Block>)
    requires IsSubtree(hs, g, bodies) && best in bodies && block.header.parent in bodies
    requires IsChange(hs, g, best, block.header, block, change) && BodiesStored(bodies, change)
    ensures NoOverlap(Retracted(bodies, change))
  {
    if change.BranchBecomingCanonChain? {
      PathDistinct(hs, g, best);
      EntriesNoOverlap(bodies, change.route.retracted);
    }
  }

  /** The body columns that an accepted insertion of `block` leads to. */
  ghost function InsertedBody(s: BodyColumns, block: Block, change: BestChanged<Block>,
                              values: map<H256, Option<seq<Address>>>): BodyColumns
    requires BodiesStored(s.bodies, change)
  {
    Indexed(s, ParcelEntries(Retracted(s.bodies, change), Enacted(s.bodies, change)), values)
    .(bodies := s.bodies[block.header.hash := block.body],
      bestBlock := if change.Unchanged? then s.bestBlock else Some(block.header.hash),
      bestProposalBlock := if change.Unchanged? then s.bestProposalBlock else Some(block.header.hash))
  }

  lemma NothingIndexed(s: BodyColumns, change: BestChanged<Block>, values: map<H256, Option<seq<Address>>>)
    requires change.Unchanged? && BodiesStored(s.bodies, change)
    requires TrackerEntries(values, s.trackers, Retracted(s.bodies, change), Enacted(s.bodies, change))
    ensures Indexed(s, ParcelEntries(Retracted(s.bodies, change), Enacted(s.bodies, change)), values) == s
  {
    assert values == map[];
    assert Patch(s.parcels, map[]) == s.parcels && Patch(s.trackers, map[]) == s.trackers;
  }

  /** An accepted insertion leads from an agreeing store to an agreeing store. */
  lemma InsertedAgrees(hs: Headers, hs': Headers, g: H256, s: BodyColumns, block: Block, best: H256,
                       change: BestChanged<Block>, values: map<H256, Option<seq<Address>>>)
    requires StoreAgrees(hs, s, g, best) && IsTree(hs', g) && SubMap(hs, hs')
    requires BlockFits(hs, g, s.bodies, block) && block.header.hash !in s.bodies
    requires block.header.hash in hs' && hs'[block.header.hash] == block.header
    requires IsChange(hs, g, best, block.header, block, change)
    requires BodiesStored(s.bodies, change)
    requires TrackerEntries(values, s.trackers, Retracted(s.bodies, change), Enacted(s.bodies, change))
    ensures StoreAgrees(hs', InsertedBody(s, block, change, values), g, if change.Unchanged? then best else block.header.hash)
  {
    hide IsTree, IsSubtree, BlockFits, TotalScore, BranchEntries, NoBranchRepeats, IsParcelIndex, IsTrackerIndex,
         TrackerEntries, ParcelEntries, Patch, Retracted, Enacted, BodiesStored, SubMap, IsRoute;
    SubtreeGrows(hs, hs', g, s.bodies, block);
    HeaviestKept(hs, hs', g, s.bodies, block, best);
    NoRepeatsKept(hs, hs', g, s.bodies, block);
    if change.Unchanged? {
      SubMapInsert(s.bodies, block.header.hash, block.body);
      BranchKept(hs, hs', g, s.bodies, s.bodies[block.header.hash := block.body], best);
      NothingIndexed(s, change, values);
    } else {
      IndexesTurn(hs, hs', g, s, block, best, change, values);
    }
  }

  lemma SubMapInsert(bodies: map<H256, Body>, h: H256, body: Body)
    requires h !in bodies
    ensures SubMap(bodies, bodies[h := body])
  {
  }

  const EMPTY_STORE := Store(HeaderColumns(map[], map[], map[], None, None), BodyColumns(map[], map[], map[], None, None))

  lemma GenesisAgrees(g: Block)
    requires g.header.number == 0
    ensures StoreAgrees(map[g.header.hash := g.header],
                        BodyColumns(map[g.header.hash := g.body], map[], map[], Some(g.header.hash), Some(g.header.hash)),
                        g.header.hash, g.header.hash)
  {
    var h, hs, bodies := g.header.hash, map[g.header.hash := g.header], map[g.header.hash := g.body];
    assert IsSubtree(hs, h, bodies);
    assert Path(hs, h, h)[1..] == [];
    assert BranchEntries(hs, h, bodies, h) == [];
  }

  class BlockChain {
    const genesis: H256
    const db: Database
    const headerchain: HC.HeaderChain
    const bodyDB: BodyDB
    var bestBlockHash: H256
    var bestProposalBlockHash: H256
    var pendingBestBlockHash: Option<H256>
    var pendingBestProposalBlockHash: Option<H256>

    ghost predicate Linked()
      reads this, headerchain, bodyDB
    {
      headerchain.db == db && headerchain.genesis == genesis && bodyDB.db == db
    }

    /** The state between two imports. */
    ghost predicate Valid()
      reads this, db, headerchain, bodyDB
    {
      && Linked()
      && headerchain.Valid()
      && bodyDB.NothingPending() && bodyDB.CachesAgree(db.store.body)
      && pendingBestBlockHash.None? && pendingBestProposalBlockHash.None?
      && bestProposalBlockHash == bestBlockHash
      && StoreAgrees(db.store.head.headers, db.store.body, genesis, bestBlockHash)
    }

    /** Committing over the store `s` would lead to a valid state. */
    ghost predicate Ready(s: Store)
      reads this, headerchain, bodyDB
    {
      && Linked()
      && headerchain.Ready(s.head)
      && BodyStaged(s.body)
      && pendingBestProposalBlockHash.GetOr(bestProposalBlockHash) == pendingBestBlockHash.GetOr(bestBlockHash)
      && StoreAgrees(s.head.headers, s.body, genesis, pendingBestBlockHash.GetOr(bestBlockHash))
    }

    /** Opens the chain: over an empty database it stores genesis, over a used one it resumes. */
    constructor (g: Block, database: Database)
      requires g.header.number == 0
      requires match database.store.body.bestBlock
               case None => database.store == EMPTY_STORE
               case Some(best) =>
                 && database.store.head.bestHeader.Some?
                 && HC.StoreAgrees(database.store.head, g.header.hash, database.store.head.bestHeader.value)
                 && StoreAgrees(database.store.head.headers, database.store.body, g.header.hash, best)
      modifies database
      ensures Valid() && fresh(headerchain) && fresh(bodyDB) && db == database && genesis == g.header.hash
      ensures old(database.store) == EMPTY_STORE ==> bestBlockHash == g.header.hash && db.store.body.bodies == map[g.header.hash := g.body]
      ensures old(database.store.body.bestBlock).Some? ==> database.store == old(database.store)
    {
      genesis, db := g.header.hash, database;
      if database.store.body.bestBlock.None? {
        database.Write(Push(Empty, ToBody(PutBestBlock(g.header.hash))));
      }
      if database.store.body.bestProposalBlock.None? {
        database.Write(Push(Empty, ToBody(PutBestProposalBlock(g.header.hash))));
      }
      bestBlockHash := database.store.body.bestBlock.value;
      bestProposalBlockHash := database.store.body.bestProposalBlock.value;
      pendingBestBlockHash, pendingBestProposalBlockHash := None, None;
      headerchain := new HC.HeaderChain(g.header, database);
      bodyDB := new BodyDB(g, database);
      GenesisAgrees(g);
    }

    lemma Unpack()
      requires Valid()
      ensures IsSubtree(db.store.head.headers, genesis, db.store.body.bodies) && IsTree(db.store.head.headers, genesis)
      ensures HC.DetailsAgree(db.store.head.headers, genesis, db.store.head.details)
      ensures IsHeaviestBlock(db.store.head.headers, genesis, db.store.body.bodies, bestBlockHash)
      ensures bestBlockHash in db.store.body.bodies && bestBlockHash in db.store.head.headers
      ensures headerchain.Readable() && SubMap(headerchain.detailCache, db.store.head.details)
      ensures SubMap(bodyDB.bodyCache, db.store.body.bodies)
    {
    }

    /** The fork choice over blocks. */
    method BestBlockChanged(block: Block) returns (change: BestChanged<Block>)
      requires Valid() && block.header.parent in db.store.body.bodies
      modifies headerchain`headerCache, headerchain`detailCache
      ensures headerchain.Valid()
      ensures IsTree(db.store.head.headers, genesis)
      ensures bestBlockHash in db.store.head.headers && block.header.parent in db.store.head.headers
      ensures IsChange(db.store.head.headers, genesis, bestBlockHash, block.header, block, change)
    {
      hide IsTree, StoreAgrees, HC.StoreAgrees, IsRoute;
      Unpack();
      var x := block.header;
      var parentDetails := headerchain.BlockDetails(x.parent);
      var bestDetails := headerchain.BlockDetails(bestProposalBlockHash);
      if parentDetails.value.totalScore + x.score <= bestDetails.value.totalScore {
        return Unchanged;
      }
      var route := headerchain.TreeRoute(bestBlockHash, x.parent);
      if |route.value.retracted| == 0 {
        HC.AppendedOnBest(db.store.head.headers, genesis, bestBlockHash, x.parent, route.value);
        return CanonChainAppended(block);
      }
      return BranchBecomingCanonChain(block, route.value);
    }

    method IsKnown(hash: H256) returns (r: bool)
      requires Valid()
      modifies bodyDB`bodyCache
      ensures Valid()
      ensures r <==> hash in db.store.body.bodies
    {
      Unpack();
      r := headerchain.IsKnownHeader(hash);
      if r {
        var body := bodyDB.BlockBody(hash);
        r := body.Some?;
      }
    }

    /** Stages the body columns of a new block. */
    method StageBody(batch: Batch, block: Block, change: BestChanged<Block>) returns (batch': Batch)
      requires Linked() && bodyDB.NothingPending() && bodyDB.CachesAgree(db.store.body)
      requires pendingBestBlockHash.None? && pendingBestProposalBlockHash.None?
      requires ApplyBatch(db.store, batch).body == db.store.body && block.header.hash !in db.store.body.bodies
      requires BodiesStored(db.store.body.bodies, change)
      requires NoOverlap(Retracted(db.store.body.bodies, change)) && NoOverlap(Enacted(db.store.body.bodies, change))
      modifies bodyDB, this`pendingBestBlockHash, this`pendingBestProposalBlockHash
      ensures pendingBestBlockHash == pendingBestProposalBlockHash == (if change.Unchanged? then None else Some(block.header.hash))
      ensures bodyDB.db == db && BodyStaged(ApplyBatch(db.store, batch').body)
      ensures TrackerEntries(bodyDB.pendingTrackers, db.store.body.trackers,
                             Retracted(db.store.body.bodies, change), Enacted(db.store.body.bodies, change))
      ensures ApplyBatch(db.store, batch').head == ApplyBatch(db.store, batch).head
      ensures ApplyBatch(db.store, batch').body == InsertedBody(db.store.body, block, change, bodyDB.pendingTrackers)
    {
      hide ApplyBatch, NoOverlap, BodiesStored, Retracted, Enacted, TrackerEntries, ParcelEntries, Patch;
      batch' := bodyDB.InsertBody(batch, block);
      ApplyPush(db.store, batch, ToBody(PutBody(block.header.hash, block.body)));
      batch' := bodyDB.UpdateBestBlock(batch', change);
      PatchCache(bodyDB.parcelCache, db.store.body.parcels, bodyDB.pendingParcels);
      PatchCache(bodyDB.trackerCache, db.store.body.trackers, bodyDB.pendingTrackers);
      if !change.Unchanged? {
        ApplyPush(db.store, batch', ToBody(PutBestBlock(block.header.hash)));
        batch' := Push(batch', ToBody(PutBestBlock(block.header.hash)));
        pendingBestBlockHash := Some(block.header.hash);
        ApplyPush(db.store, batch', ToBody(PutBestProposalBlock(block.header.hash)));
        batch' := Push(batch', ToBody(PutBestProposalBlock(block.header.hash)));
        pendingBestProposalBlockHash := Some(block.header.hash);
      }
    }

    /** The body caches, once committed, will be coherent with `s`. */
    ghost predicate BodyStaged(s: BodyColumns)
      reads bodyDB
    {
      && SubMap(bodyDB.bodyCache, s.bodies)
      && SubMap(Patch(bodyDB.parcelCache, bodyDB.pendingParcels), s.parcels)
      && SubMap(Patch(bodyDB.trackerCache, bodyDB.pendingTrackers), s.trackers)
    }

    /** Stages a block whose body is not stored yet. */
    method StageBlock(batch: Batch, block: Block) returns (batch': Batch, change: BestChanged<Block>)
      requires Valid() && ApplyBatch(db.store, batch) == db.store
      requires block.header.hash !in db.store.body.bodies
      requires IsSubtree(db.store.head.headers, genesis, db.store.body.bodies)
      requires BlockFits(db.store.head.headers, genesis, db.store.body.bodies, block)
      modifies this`pendingBestBlockHash, this`pendingBestProposalBlockHash, headerchain, bodyDB
      ensures Ready(ApplyBatch(db.store, batch'))
      ensures IsChange(db.store.head.headers, genesis, bestBlockHash, block.header, block, change)
      ensures pendingBestBlockHash == (if change.Unchanged? then None else Some(block.header.hash))
      ensures ApplyBatch(db.store, batch').body.bodies == db.store.body.bodies[block.header.hash := block.body]
      ensures ApplyBatch(db.store, batch').head.headers == db.store.head.headers[block.header.hash := block.header]
    {
      hide ApplyBatch, IsTree, StoreAgrees, IsSubtree, IsHeaviestBlock, FitsOn, IsChange, NoOverlap, BodiesStored, Retracted, Enacted,
           TrackerEntries, ParcelEntries, Patch, NoRepeat, BranchEntries, BlockEntries, HC.StoreAgrees, HC.CachesAgree, HC.NewNumbers;
      Unpack();
      change := BestBlockChanged(block);
      var headerChange;
      batch', headerChange := headerchain.InsertHeader(batch, block.header);
      ghost var t := ApplyBatch(db.store, batch');
      HC.UnpackStore(t.head, genesis, headerchain.pendingBestHeaderHash.GetOr(headerchain.bestHeaderHash));
      assert t.head.headers == db.store.head.headers[block.header.hash := block.header];
      ChangeReadable(db.store.head.headers, genesis, db.store.body.bodies, block, bestBlockHash, change);
      batch' := StageBody(batch', block, change);
      InsertedAgrees(db.store.head.headers, t.head.headers, genesis, db.store.body, block, bestBlockHash, change, bodyDB.pendingTrackers);
    }

    /** The canonical branch of blocks, from genesis to the best block. */
    ghost function CanonPath(): seq<H256>
      requires IsTree(db.store.head.headers, genesis) && bestBlockHash in db.store.head.headers
      reads this, db
    {
      Path(db.store.head.headers, genesis, bestBlockHash)
    }

    /** Stages a block; a known block stages nothing. */
    method InsertBlock(batch: Batch, block: Block) returns (batch': Batch, route: ImportRoute)
      requires Valid() && ApplyBatch(db.store, batch) == db.store
      requires block.header.hash !in db.store.body.bodies ==>
                 BlockFits(db.store.head.headers, genesis, db.store.body.bodies, block)
      modifies this`pendingBestBlockHash, this`pendingBestProposalBlockHash, headerchain, bodyDB
      ensures Ready(ApplyBatch(db.store, batch'))
      ensures block.header.hash in db.store.body.bodies ==>
                batch' == batch && route == NO_IMPORT && pendingBestBlockHash.None?
      ensures block.header.hash !in db.store.body.bodies ==>
                && ApplyBatch(db.store, batch').body.bodies == db.store.body.bodies[block.header.hash := block.body]
                && ApplyBatch(db.store, batch').head.headers == db.store.head.headers[block.header.hash := block.header]
                && pendingBestBlockHash == BestAfter(db.store.head.headers, genesis, bestBlockHash, block.header)
      ensures var hs, hs' := db.store.head.headers, ApplyBatch(db.store, batch').head.headers;
              IsTree(hs', genesis) && pendingBestBlockHash.GetOr(bestBlockHash) in hs' &&
              Turns(route, Path(hs, genesis, bestBlockHash), Path(hs', genesis, pendingBestBlockHash.GetOr(bestBlockHash)))
    {
      hide ApplyBatch, IsTree, IsSubtree, IsHeaviestBlock, BlockFits, Patch, BranchEntries, Path, Turns, IsChange,
           HC.StoreAgrees, HC.CachesAgree, StoreAgrees;
      Unpack();
      var known := IsKnown(block.header.hash);
      if known {
        ReadyAsIs();
        NoImportTurns(Path(db.store.head.headers, genesis, bestBlockHash));
        return batch, NO_IMPORT;
      }
      var change;
      ghost var hs := db.store.head.headers;
      batch', change := StageBlock(batch, block);
      StagedTurns(hs, genesis, db.store.body.bodies, block, bestBlockHash, change, ApplyBatch(db.store, batch').head,
                  headerchain.pendingBestHeaderHash.GetOr(headerchain.bestHeaderHash));
      return batch', NewImportRoute(block.header.hash, change);
    }

    /** Stages a header alone; the blocks are untouched. */
    method InsertHeader(batch: Batch, x: Header) returns (batch': Batch, route: ImportRoute)
      requires Valid() && ApplyBatch(db.store, batch) == db.store
      requires x.hash !in db.store.head.headers ==> FitsOn(db.store.head.headers, x)
      modifies headerchain
      ensures headerchain.bestHeaderHash == old(headerchain.bestHeaderHash)
      ensures IsTree(db.store.head.headers, genesis) && headerchain.bestHeaderHash in db.store.head.headers
      ensures Ready(ApplyBatch(db.store, batch')) && pendingBestBlockHash.None?
      ensures ApplyBatch(db.store, batch').body == db.store.body
      ensures x.hash in db.store.head.headers ==> batch' == batch && route == NO_IMPORT && headerchain.pendingBestHeaderHash.None?
      ensures x.hash !in db.store.head.headers ==>
                && ApplyBatch(db.store, batch').head.headers == db.store.head.headers[x.hash := x]
                && headerchain.pendingBestHeaderHash == BestAfter(db.store.head.headers, genesis, headerchain.bestHeaderHash, x)
      ensures var hs, hs' := db.store.head.headers, ApplyBatch(db.store, batch').head.headers;
              var best := headerchain.bestHeaderHash;
              && IsTree(hs', genesis) && headerchain.pendingBestHeaderHash.GetOr(best) in hs'
              && Turns(route, Path(hs, genesis, best), Path(hs', genesis, headerchain.pendingBestHeaderHash.GetOr(best)))
    {
      hide ApplyBatch, IsTree, Patch, Path, Turns, IsChange, FitsOn, HC.StoreAgrees, HC.CachesAgree, StoreAgrees, HC.NewNumbers;
      Unpack();
      ReadyAsIs();
      headerchain.Unpack();
      var change;
      batch', change := headerchain.InsertHeader(batch, x);
      if change.None? {
        NoImportTurns(Path(db.store.head.headers, genesis, headerchain.bestHeaderHash));
        return batch', NO_IMPORT;
      }
      HeaderTurns(db.store.head.headers, genesis, x, headerchain.bestHeaderHash, change.value);
      SubMapHeaders(db.store.head.headers, x);
      HeadersGrow(db.store.head.headers, db.store.head.headers[x.hash := x], db.store.body, genesis, bestBlockHash);
      return batch', NewImportRoute(x.hash, change.value);
    }

    /** Imports a verified header: stages it, writes the batch and commits. */
    method ImportHeader(x: Header) returns (route: ImportRoute)
      requires Valid()
      requires x.hash !in db.store.head.headers ==> FitsOn(db.store.head.headers, x)
      modifies this, db, headerchain, bodyDB
      ensures Valid() && bestBlockHash == old(bestBlockHash) && db.store.body == old(db.store).body
      ensures db.store.head.headers == if x.hash in old(db.store).head.headers then old(db.store).head.headers
                                       else old(db.store).head.headers[x.hash := x]
      ensures IsTree(old(db.store).head.headers, genesis) && old(headerchain.bestHeaderHash) in old(db.store).head.headers
      ensures Turns(route, Path(old(db.store).head.headers, genesis, old(headerchain.bestHeaderHash)),
                    Path(db.store.head.headers, genesis, headerchain.bestHeaderHash))
    {
      hide ApplyBatch, IsTree, Path, Turns, FitsOn, Ready, HC.StoreAgrees, HC.CachesAgree, StoreAgrees;
      headerchain.Unpack();
      ApplyNothing(db.store);
      var batch;
      batch, route := InsertHeader(Empty, x);
      db.Write(batch);
      Commit();
    }

    /** Imports a verified block: stages it, writes the batch and commits. */
    method ImportBlock(block: Block) returns (route: ImportRoute)
      requires Valid()
      requires block.header.hash !in db.store.body.bodies ==>
                 BlockFits(db.store.head.headers, genesis, db.store.body.bodies, block)
      modifies this, db, headerchain, bodyDB
      ensures Valid()
      ensures db.store.body.bodies == if block.header.hash in old(db.store).body.bodies then old(db.store).body.bodies
                                      else old(db.store).body.bodies[block.header.hash := block.body]
      ensures db.store.head.headers == if block.header.hash in old(db.store).body.bodies then old(db.store).head.headers
                                       else old(db.store).head.headers[block.header.hash := block.header]
      ensures IsTree(old(db.store).head.headers, genesis) && old(bestBlockHash) in old(db.store).head.headers
      ensures Turns(route, old(CanonPath()), CanonPath())
    {
      hide ApplyBatch, IsTree, Path, Turns, BlockFits, Ready, HC.StoreAgrees, HC.CachesAgree, StoreAgrees, IsHeaviestBlock;
      Unpack();
      ApplyNothing(db.store);
      var batch;
      batch, route := InsertBlock(Empty, block);
      db.Write(batch);
      Commit();
    }

    /** The indexed transactions: those of the non-genesis blocks of the canonical branch. */
    ghost function CanonEntries(): seq<Entry>
      requires IsSubtree(db.store.head.headers, genesis, db.store.body.bodies) && bestBlockHash in db.store.body.bodies
      reads this, db
    {
      BranchEntries(db.store.head.headers, genesis, db.store.body.bodies, bestBlockHash)
    }

    /** Finds a transaction exactly when it is on the canonical branch, and then at its position. */
    method TransactionAddress(hash: H256) returns (r: Option<Address>)
      requires Valid()
      modifies bodyDB`parcelCache
      ensures Valid()
      ensures r.Some? <==> exists e :: e in CanonEntries() && e.tx.hash == hash
      ensures forall e :: e in CanonEntries() && e.tx.hash == hash ==> r == Some(e.address)
    {
      hide IsSubtree, NoBranchRepeats, IsHeaviestBlock, BranchEntries, IsParcelIndex, IsTrackerIndex, HC.StoreAgrees, HC.CachesAgree;
      Unpack();
      r := bodyDB.TransactionAddress(hash);
      ParcelLookup(db.store.body.parcels, CanonEntries(), hash);
    }

    /** Finds the first canonical position with the tracker. */
    method TransactionAddressByTracker(tracker: H256) returns (r: Option<Address>)
      requires Valid()
      modifies bodyDB`trackerCache
      ensures Valid()
      ensures var list := TrackerList(CanonEntries(), tracker);
              r == if list == [] then None else Some(list[0])
    {
      hide IsSubtree, NoBranchRepeats, IsHeaviestBlock, BranchEntries, IsParcelIndex, TrackerList, HC.StoreAgrees, HC.CachesAgree;
      Unpack();
      r := bodyDB.TransactionAddressByTracker(tracker);
    }

    lemma ReadyAsIs()
      requires Valid()
      ensures Ready(db.store)
    {
      assert headerchain.detailCache + map[] == headerchain.detailCache;
      assert headerchain.hashCache + map[] == headerchain.hashCache;
      PatchNothing(bodyDB.parcelCache);
      PatchNothing(bodyDB.trackerCache);
    }

    /** Makes the staged updates visible once the batch has been written. */
    method Commit()
      requires Ready(db.store)
      modifies this, headerchain, bodyDB
      ensures Valid()
      ensures bestBlockHash == old(pendingBestBlockHash.GetOr(bestBlockHash))
      ensures headerchain.bestHeaderHash == old(headerchain.pendingBestHeaderHash.GetOr(headerchain.bestHeaderHash))
    {
      hide StoreAgrees, HC.StoreAgrees, HC.CachesAgree, Patch, SubMap;
      headerchain.Commit();
      bodyDB.Commit();
      if pendingBestBlockHash.Some? {
        bestBlockHash, pendingBestBlockHash := pendingBestBlockHash.value, None;
      }
      if pendingBestProposalBlockHash.Some? {
        bestProposalBlockHash, pendingBestProposalBlockHash := pendingBestProposalBlockHash.value, None;
      }
    }
  }

  /** A bigger header tree leaves the stored blocks and their indexes as they are. */
  lemma HeadersGrow(hs: Headers, hs': Headers, s: BodyColumns, g: H256, best: H256)
    requires StoreAgrees(hs, s, g, best) && IsTree(hs', g) && SubMap(hs, hs')
    ensures StoreAgrees(hs', s, g, best)
  {
    forall h | h in s.bodies && h != g ensures ParentStored(hs', s.bodies, h) {
      assert ParentStored(hs, s.bodies, h);
    }
    assert IsSubtree(hs', g, s.bodies);
    forall h | h in s.bodies
      ensures BranchEntries(hs', g, s.bodies, h) == BranchEntries(hs, g, s.bodies, h) && TotalScore(hs', g, h) == TotalScore(hs, g, h)
    {
      BranchKept(hs, hs', g, s.bodies, s.bodies, h);
      SubTree(hs, hs', g, h);
    }
    forall h | h in s.bodies ensures NoRepeat(BranchEntries(hs', g, s.bodies, h)) {
      assert NoRepeat(BranchEntries(hs, g, s.bodies, h));
    }
  }

  lemma PatchNothing<V>(m: map<H256, V>)
    ensures Patch(m, map[]) == m
  {
  }

  /** The block that takes over, if the new one does. */
  ghost function BestAfter(hs: Headers, g: H256, best: H256, x: Header): Option<H256>
    requires IsTree(hs, g) && best in hs && x.parent in hs
  {
    if TotalScore(hs, g, x.parent) + x.score <= TotalScore(hs, g, best) then None else Some(x.hash)
  }

  lemma SubMapHeaders(hs: Headers, x: Header)
    requires x.hash !in hs
    ensures SubMap(hs, hs[x.hash := x])
  {
  }

  lemma HeaderTurns(hs: Headers, g: H256, x: Header, best: H256, change: BestChanged<Header>)
    requires IsTree(hs, g) && best in hs && x.hash !in hs && FitsOn(hs, x) && IsChange(hs, g, best, x, x, change)
    ensures IsTree(hs[x.hash := x], g)
    ensures BestAfter(hs, g, best, x) == if change.Unchanged? then None else Some(x.hash)
    ensures Turns(NewImportRoute(x.hash, change), Path(hs, g, best),
                  Path(hs[x.hash := x], g, if change.Unchanged? then best else x.hash))
  {
    Grow(hs, g, x);
    forall i | 0 <= i < |Path(hs, g, best)| ensures Path(hs, g, best)[i] in hs {
      PathPrefix(hs, g, best, i);
    }
    ImportRouteTurns(hs, hs[x.hash := x], g, best, x, x, change);
  }

  lemma NoImportTurns(p: seq<H256>)
    ensures Turns(NO_IMPORT, p, p)
  {
    assert TurnsAt(NO_IMPORT, p, p, |p|);
  }

  lemma StagedTurns(hs: Headers, g: H256, bodies: map<H256, Body>, block: Block, best: H256, change: BestChanged<Block>,
                    head: HeaderColumns, bestHeader: H256)
    requires IsSubtree(hs, g, bodies) && best in bodies && BlockFits(hs, g, bodies, block) && block.header.hash !in bodies
    requires IsChange(hs, g, best, block.header, block, change)
    requires HC.StoreAgrees(head, g, bestHeader) && head.headers == hs[block.header.hash := block.header]
    ensures IsTree(head.headers, g)
    ensures BestAfter(hs, g, best, block.header) == if change.Unchanged? then None else Some(block.header.hash)
    ensures var best' := if change.Unchanged? then best else block.header.hash;
            && best' in head.headers
            && Turns(NewImportRoute(block.header.hash, change), Path(hs, g, best), Path(head.headers, g, best'))
  {
    BranchStored(hs, g, bodies, best);
    ImportRouteTurns(hs, head.headers, g, best, block.header, block, change);
  }
}
