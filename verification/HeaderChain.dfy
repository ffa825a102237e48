/** The header chain: fork choice over headers, the number index, the pending updates and the
    caches (core/src/blockchain/headerchain.rs, with the default engine hooks). */
module HeaderChain {
  import opened Prelude
  import opened HeaderTree
  import opened Database
  import opened Route

  /** `best` is a heaviest header. */
  ghost predicate IsHeaviest(hs: Headers, g: H256, best: H256)
    requires IsTree(hs, g)
  {
    best in hs && forall h {:trigger h in hs} :: h in hs ==> TotalScore(hs, g, h) <= TotalScore(hs, g, best)
  }

  ghost predicate DetailsAgree(hs: Headers, g: H256, details: map<H256, BlockDetails>)
    requires IsTree(hs, g)
  {
    && details.Keys == hs.Keys
    && forall h {:trigger details[h]} :: h in hs ==> details[h] == Details(hs[h].number, TotalScore(hs, g, h), hs[h].parent)
  }

  /** The number index lists the branch `path`. Above it, leftovers of retracted branches may remain. */
  ghost predicate NumbersAgree(numbers: map<nat, H256>, path: seq<H256>) {
    forall n :: 0 <= n < |path| ==> n in numbers && numbers[n] == path[n]
  }

  /** The stored headers form a tree, and everything the chain keeps beside them is what that
      tree says it should be. */
  ghost predicate StoreAgrees(s: HeaderColumns, g: H256, best: H256) {
    && IsTree(s.headers, g)
    && DetailsAgree(s.headers, g, s.details)
    && IsHeaviest(s.headers, g, best)
    && s.bestHeader == Some(best) && s.bestProposalHeader == Some(best)
    && NumbersAgree(s.numbers, Path(s.headers, g, best))
  }

  ghost predicate CachesAgree(s: HeaderColumns, headerCache: Headers, detailCache: map<H256, BlockDetails>, hashCache: map<nat, H256>) {
    && SubMap(headerCache, s.headers)
    && SubMap(detailCache, s.details)
    && SubMap(hashCache, s.numbers)
    && Below(hashCache.Keys, NUMBER_LIMIT)
  }

  ghost predicate Below(numbers: set<nat>, limit: nat) {
    forall n :: n in numbers ==> n < limit
  }

  function NumberEntry(n: nat, h: H256): Write { ToHead(PutNumber(n, h)) }

  function DetailsEntry(h: H256, d: BlockDetails): Write { ToHead(PutDetails(h, d)) }

  lemma {:induction false} PutNumbersApply(s: Store, batch: Batch, listing: Log<(nat, H256)>, t: HeaderColumns)
    requires Below(Collected(listing).Keys, NUMBER_LIMIT)
    requires t == ApplyBatch(s, batch).head
    ensures ApplyBatch(s, PutWrites(batch, listing, NumberEntry))
         == ApplyBatch(s, batch).(head := t.(numbers := t.numbers + Collected(listing)))
  {
    match listing
    case Empty =>
      assert t.numbers + map[] == t.numbers;
    case Push(init, e) =>
      assert forall n :: n in Collected(init) ==> n in Collected(listing);
      assert e.0 in Collected(listing);
      PutNumbersApply(s, batch, init, t);
      AddThenUpdate(t.numbers, Collected(init), e.0, e.1);
      assert NumberKey(e.0) == e.0;
  }

  lemma {:induction false} PutDetailsApply(s: Store, batch: Batch, listing: Log<(H256, BlockDetails)>, t: HeaderColumns)
    requires t == ApplyBatch(s, batch).head
    ensures ApplyBatch(s, PutWrites(batch, listing, DetailsEntry))
         == ApplyBatch(s, batch).(head := t.(details := t.details + Collected(listing)))
  {
    match listing
    case Empty =>
      assert t.details + map[] == t.details;
    case Push(init, e) =>
      PutDetailsApply(s, batch, init, t);
      AddThenUpdate(t.details, Collected(init), e.0, e.1);
  }

  /** The number-index entries that a change of the best header writes. */
  ghost function NewNumbers(hs: Headers, g: H256, x: Header, change: BestChanged<Header>): map<nat, H256>
    requires IsTree(hs, g) && x.parent in hs && x.number == hs[x.parent].number + 1
  {
    match change
    case Unchanged => map[]
    case CanonChainAppended(_) => map[x.number := x.hash]
    case BranchBecomingCanonChain(_, r) =>
      map n: nat | x.number - |r.enacted| <= n <= x.number :: (Path(hs, g, x.parent) + [x.hash])[n]
  }

  /** The store that an accepted insertion of `x` leads to. */
  ghost function Inserted(s: HeaderColumns, g: H256, x: Header, change: BestChanged<Header>): HeaderColumns
    requires IsTree(s.headers, g) && x.parent in s.headers && x.number == s.headers[x.parent].number + 1
  {
    Staged(s, x, change,
           map[x.hash := Details(x.number, TotalScore(s.headers, g, x.parent) + x.score, x.parent)],
           NewNumbers(s.headers, g, x, change))
  }

  /** A route that retracts nothing, to a header that is not heavier, goes nowhere: scores are positive. */
  lemma AppendedOnBest(hs: Headers, g: H256, best: H256, to: H256, r: TreeRoute)
    requires IsTree(hs, g) && best in hs && to in hs && TotalScore(hs, g, to) <= TotalScore(hs, g, best)
    requires IsRoute(hs, g, best, to, r) && r.retracted == []
    ensures to == best
  {
    var p, q := Path(hs, g, best), Path(hs, g, to);
    assert |r.retracted| == |p| - (hs[r.ancestor].number + 1);
    assert p == p[..|p|] == q[..|p|];
    assert q[|p| - 1] == q[..|p|][|p| - 1] == best;
    if |p| < |q| {
      ScoreGrows(hs, g, to, |p| - 1);
    }
  }

  lemma NewNumbersOf(hs: Headers, g: H256, best: H256, x: Header, change: BestChanged<Header>)
    requires IsTree(hs, g) && best in hs && FitsOn(hs, x) && IsChange(hs, g, best, x, x, change)
    ensures Below(NewNumbers(hs, g, x, change).Keys, NUMBER_LIMIT)
    ensures change.Unchanged? ==> NewNumbers(hs, g, x, change) == map[]
    ensures change.CanonChainAppended? ==> NewNumbers(hs, g, x, change) == map[x.number := x.hash]
    ensures change.BranchBecomingCanonChain? ==>
              && change.route.ancestor in hs
              && var q, k := Path(hs, g, x.parent), hs[change.route.ancestor].number + 1;
              && k <= |q| && change.route.enacted == q[k..]
              && NewNumbers(hs, g, x, change) == (map n: nat | k <= n < |q| :: q[n])[x.number := x.hash]
  {
  }

  lemma InsertedNumbers(s: HeaderColumns, g: H256, best: H256, x: Header, change: BestChanged<Header>)
    requires StoreAgrees(s, g, best)
    requires x.hash !in s.headers && FitsOn(s.headers, x)
    requires IsChange(s.headers, g, best, x, x, change) && !change.Unchanged?
    ensures NumbersAgree(s.numbers + NewNumbers(s.headers, g, x, change), Path(s.headers, g, x.parent) + [x.hash])
  {
    var hs := s.headers;
    var p, q := Path(hs, g, best), Path(hs, g, x.parent);
    var numbers' := s.numbers + NewNumbers(hs, g, x, change);
    forall n | 0 <= n < |q| + 1
      ensures n in numbers' && numbers'[n] == (q + [x.hash])[n]
    {
      if change.BranchBecomingCanonChain? {
        var k := hs[change.route.ancestor].number + 1;
        assert |change.route.enacted| == |q| - k;
        assert n < k ==> p[..k][n] == q[..k][n];
      }
    }
  }

  lemma InsertedDetails(hs: Headers, g: H256, details: map<H256, BlockDetails>, x: Header)
    requires IsTree(hs, g) && x.hash !in hs && FitsOn(hs, x) && IsTree(hs[x.hash := x], g)
    requires DetailsAgree(hs, g, details)
    ensures DetailsAgree(hs[x.hash := x], g,
                         details + map[x.hash := Details(x.number, TotalScore(hs, g, x.parent) + x.score, x.parent)])
  {
    Grow(hs, g, x);
    forall h | h in hs ensures TotalScore(hs[x.hash := x], g, h) == TotalScore(hs, g, h) && h in details {
      SubTree(hs, hs[x.hash := x], g, h);
    }
  }

  /** The heavier of the old best header and the new one is a heaviest header of the grown tree. */
  lemma InsertedHeaviest(hs: Headers, g: H256, best: H256, x: Header)
    requires IsTree(hs, g) && x.hash !in hs && FitsOn(hs, x) && IsTree(hs[x.hash := x], g)
    requires IsHeaviest(hs, g, best)
    ensures IsHeaviest(hs[x.hash := x], g,
                       if TotalScore(hs, g, x.parent) + x.score <= TotalScore(hs, g, best) then best else x.hash)
  {
    Grow(hs, g, x);
    forall h | h in hs ensures TotalScore(hs[x.hash := x], g, h) == TotalScore(hs, g, h) <= TotalScore(hs, g, best) {
      SubTree(hs, hs[x.hash := x], g, h);
    }
  }

  /** An accepted insertion leads from an agreeing store to an agreeing store. */
  lemma InsertedAgrees(s: HeaderColumns, g: H256, best: H256, x: Header, change: BestChanged<Header>)
    requires StoreAgrees(s, g, best)
    requires x.hash !in s.headers && FitsOn(s.headers, x)
    requires IsChange(s.headers, g, best, x, x, change)
    ensures var best' := if change.Unchanged? then best else x.hash;
            StoreAgrees(Inserted(s, g, x, change), g, best')
  {
    hide IsTree, FitsOn, DetailsAgree, NumbersAgree, Path, TotalScore, NewNumbers;
    var hs' := s.headers[x.hash := x];
    Grow(s.headers, g, x);
    InsertedDetails(s.headers, g, s.details, x);
    InsertedHeaviest(s.headers, g, best, x);
    if change.Unchanged? {
      SubTree(s.headers, hs', g, best);
      UnchangedNumbers(s, g, x, change);
    } else {
      InsertedNumbers(s, g, best, x, change);
    }
  }

  lemma UnchangedNumbers(s: HeaderColumns, g: H256, x: Header, change: BestChanged<Header>)
    requires IsTree(s.headers, g) && FitsOn(s.headers, x) && change.Unchanged?
    ensures s.numbers + NewNumbers(s.headers, g, x, change) == s.numbers
  {
  }

  /** The header columns after the writes of an insertion. */
  ghost function Staged(t: HeaderColumns, x: Header, change: BestChanged<Header>,
                        newDetails: map<H256, BlockDetails>, newHashes: map<nat, H256>): HeaderColumns
  {
    HeaderColumns(t.headers[x.hash := x], t.details + newDetails, t.numbers + newHashes,
                  if change.Unchanged? then t.bestHeader else Some(x.hash),
                  if change.Unchanged? then t.bestProposalHeader else Some(x.hash))
  }

  lemma InsertedCaches(s: HeaderColumns, g: H256, x: Header, change: BestChanged<Header>, headerCache: Headers,
                       detailCache: map<H256, BlockDetails>, hashCache: map<nat, H256>,
                       newDetails: map<H256, BlockDetails>, newHashes: map<nat, H256>)
    requires IsTree(s.headers, g) && FitsOn(s.headers, x) && s.details.Keys == s.headers.Keys && x.hash !in s.headers
    requires SubMap(headerCache, s.headers) && SubMap(detailCache, s.details)
    requires SubMap(hashCache, s.numbers) && Below(hashCache.Keys, NUMBER_LIMIT)
    requires newDetails == map[x.hash := Details(x.number, TotalScore(s.headers, g, x.parent) + x.score, x.parent)]
    requires newHashes == NewNumbers(s.headers, g, x, change)
    requires Below(newHashes.Keys, NUMBER_LIMIT)
    ensures CachesAgree(Inserted(s, g, x, change), headerCache, detailCache + newDetails, hashCache + newHashes)
  {
  }

  class HeaderChain {
    const genesis: H256
    const db: Database
    var bestHeaderHash: H256
    var bestProposalHeaderHash: H256
    var headerCache: Headers
    var detailCache: map<H256, BlockDetails>
    var hashCache: map<nat, H256>
    var pendingBestHeaderHash: Option<H256>
    var pendingBestProposalHash: Option<H256>
    var pendingHashes: map<nat, H256>
    var pendingDetails: map<H256, BlockDetails>

    ghost predicate NothingPending()
      reads this
    {
      && pendingBestHeaderHash.None? && pendingBestProposalHash.None?
      && pendingHashes == map[] && pendingDetails == map[]
    }

    /** The state between two imports: nothing pending, and all that is kept agrees with the tree. */
    ghost predicate Valid()
      reads this, db
    {
      && NothingPending()
      && bestProposalHeaderHash == bestHeaderHash
      && StoreAgrees(db.store.head, genesis, bestHeaderHash)
      && CachesAgree(db.store.head, headerCache, detailCache, hashCache)
    }

    lemma Unpack()
      requires Valid()
      ensures IsTree(db.store.head.headers, genesis) && DetailsAgree(db.store.head.headers, genesis, db.store.head.details)
      ensures db.store.head.details.Keys == db.store.head.headers.Keys
      ensures bestHeaderHash in db.store.head.headers
      ensures SubMap(headerCache, db.store.head.headers) && SubMap(detailCache, db.store.head.details)
      ensures SubMap(hashCache, db.store.head.numbers) && Below(hashCache.Keys, NUMBER_LIMIT)
    {
    }

    /** What reading headers needs of the state. */
    ghost predicate Readable()
      reads this, db
    {
      && IsTree(db.store.head.headers, genesis)
      && SubMap(headerCache, db.store.head.headers)
    }

    /** Committing over the store `s` would lead to a valid state. */
    ghost predicate Ready(s: HeaderColumns)
      reads this
    {
      && pendingBestProposalHash.GetOr(bestProposalHeaderHash) == pendingBestHeaderHash.GetOr(bestHeaderHash)
      && StoreAgrees(s, genesis, pendingBestHeaderHash.GetOr(bestHeaderHash))
      && CachesAgree(s, headerCache, detailCache + pendingDetails, hashCache + pendingHashes)
    }

    /** Opens the chain: over an empty database it stores genesis, over a used one it resumes. */
    constructor (g: Header, database: Database)
      requires g.number == 0
      requires match database.store.head.bestHeader
               case None => database.store.head.headers == map[] && database.store.head.details == map[]
               case Some(best) => StoreAgrees(database.store.head, g.hash, best)
      modifies database
      ensures Valid() && db == database && genesis == g.hash
      ensures old(database.store.head.bestHeader).Some? ==> database.store == old(database.store)
      ensures old(database.store.head.bestHeader).None? ==>
                && bestHeaderHash == g.hash
                && database.store.head.headers == map[g.hash := g] && database.store.body == old(database.store).body
    {
      genesis, db := g.hash, database;
      if database.store.head.bestHeader.None? {
        database.Write(GenesisBatch(g));
        GenesisWritten(old(database.store), g);
      }
      bestHeaderHash := database.store.head.bestHeader.value;
      bestProposalHeaderHash := database.store.head.bestProposalHeader.value;
      headerCache, detailCache, hashCache := map[], map[], map[];
      pendingBestHeaderHash, pendingBestProposalHash := None, None;
      pendingHashes, pendingDetails := map[], map[];
    }

    method BlockHeaderData(hash: H256) returns (r: Option<Header>)
      requires Readable()
      modifies this`headerCache
      ensures Readable()
      ensures r == Lookup(db.store.head.headers, hash)
    {
      r, headerCache := ReadWithCache(db.store.head.headers, headerCache, hash, hash);
    }

    method BlockDetails(hash: H256) returns (r: Option<BlockDetails>)
      requires SubMap(detailCache, db.store.head.details)
      modifies this`detailCache
      ensures SubMap(detailCache, db.store.head.details)
      ensures r == Lookup(db.store.head.details, hash)
    {
      r, detailCache := ReadWithCache(db.store.head.details, detailCache, hash, hash);
    }

    method IsKnownHeader(hash: H256) returns (r: bool)
      requires Valid()
      ensures r <==> hash in db.store.head.headers
    {
      r := hash in detailCache || hash in db.store.head.details;
    }

    /** `cur` is stored, and lies on the branch of `top` below the headers already `passed`. */
    ghost predicate OnBranch(top: H256, cur: Header, passed: seq<H256>)
      requires IsTree(db.store.head.headers, genesis)
      reads this, db
    {
      && top in db.store.head.headers
      && Lookup(db.store.head.headers, cur.hash) == Some(cur)
      && Climbing(Path(db.store.head.headers, genesis, top), cur, passed)
    }

    /** Notes the header reached and moves on to its parent. */
    method Climb(ghost top: H256, cur: Header, passed: seq<H256>) returns (up: Header, passed': seq<H256>)
      requires Readable() && OnBranch(top, cur, passed) && cur.number > 0
      modifies this`headerCache
      ensures Readable() && OnBranch(top, up, passed') && up.number == cur.number - 1
    {
      PathParent(db.store.head.headers, genesis, top, cur.number);
      PathPrefix(db.store.head.headers, genesis, top, cur.number - 1);
      passed' := passed + [cur.hash];
      var parent := BlockHeaderData(cur.parent);
      up := parent.value;
    }

    /** Climbs the higher branch until both stand at the same number. */
    method ClimbLevel(ghost from: H256, ghost to: H256, retract: Header, enact: Header)
        returns (curRetract: Header, retracted: seq<H256>, curEnact: Header, enacted: seq<H256>)
      requires Readable()
      requires Lookup(db.store.head.headers, from) == Some(retract) && Lookup(db.store.head.headers, to) == Some(enact)
      modifies this`headerCache
      ensures Readable()
      ensures OnBranch(from, curRetract, retracted) && OnBranch(to, curEnact, enacted)
      ensures curRetract.number == curEnact.number
      ensures curRetract == retract || curEnact == enact
    {
      curRetract, retracted, curEnact, enacted := retract, [], enact, [];
      while curRetract.number != curEnact.number
        invariant Readable()
        invariant OnBranch(from, curRetract, retracted) && OnBranch(to, curEnact, enacted)
        invariant curRetract == retract || curEnact == enact
        invariant curRetract.number > curEnact.number ==> curEnact == enact
        invariant curRetract.number < curEnact.number ==> curRetract == retract
        decreases curRetract.number + curEnact.number
      {
        if curRetract.number > curEnact.number {
          curRetract, retracted := Climb(from, curRetract, retracted);
        } else {
          curEnact, enacted := Climb(to, curEnact, enacted);
        }
      }
    }

    /** Climbs from both ends to the deepest common ancestor. The route exists whenever both ends do. */
    method TreeRoute(from: H256, to: H256) returns (r: Option<TreeRoute>)
      requires Readable()
      modifies this`headerCache
      ensures Readable()
      ensures r.Some? <==> from in db.store.head.headers && to in db.store.head.headers
      ensures r.Some? ==> IsRoute(db.store.head.headers, genesis, from, to, r.value)
    {
      hide Path, IsTree, IsRoute;
      var start := BlockHeaderData(from);
      if start.None? { return None; }
      var end := BlockHeaderData(to);
      if end.None? { return None; }
      var curRetract, retracted, curEnact, enacted := ClimbLevel(from, to, start.value, end.value);
      ghost var hs := db.store.head.headers;
      ghost var p, q := Path(hs, genesis, from), Path(hs, genesis, to);
      while curRetract.hash != curEnact.hash
        invariant Readable()
        invariant OnBranch(from, curRetract, retracted) && OnBranch(to, curEnact, enacted)
        invariant curRetract.number == curEnact.number
        invariant var n := curRetract.number + 1; n < |p| && n < |q| ==> p[n] != q[n]
        decreases curRetract.number
      {
        curRetract, retracted := Climb(from, curRetract, retracted);
        curEnact, enacted := Climb(to, curEnact, enacted);
      }
      RouteFound(hs, genesis, from, to, curRetract, retracted, enacted);
      return Some(Route.TreeRoute(curRetract.hash, Reverse(enacted), retracted));
    }

    /** The fork choice. */
    method BestHeaderChanged(x: Header) returns (change: BestChanged<Header>)
      requires Valid() && x.hash !in db.store.head.headers && FitsOn(db.store.head.headers, x)
      modifies this`headerCache, this`detailCache
      ensures Readable() && SubMap(detailCache, db.store.head.details)
      ensures IsChange(db.store.head.headers, genesis, bestHeaderHash, x, x, change)
    {
      var parentDetails := BlockDetails(x.parent);
      var bestDetails := BlockDetails(bestProposalHeaderHash);
      if parentDetails.value.totalScore + x.score <= bestDetails.value.totalScore {
        return Unchanged;
      }
      var route := TreeRoute(bestHeaderHash, x.parent);
      if |route.value.retracted| == 0 {
        AppendedOnBest(db.store.head.headers, genesis, bestHeaderHash, x.parent, route.value);
        return CanonChainAppended(x);
      }
      return BranchBecomingCanonChain(x, route.value);
    }

    static method EnactedEntries(start: nat, enacted: seq<H256>, ghost branch: seq<H256>) returns (hashes: map<nat, H256>)
      requires start <= |branch| && enacted == branch[start..]
      ensures hashes == map n: nat | start <= n < |branch| :: branch[n]
    {
      hashes := map[];
      for i := 0 to |enacted|
        invariant hashes == map n: nat | start <= n < start + i :: branch[n]
      {
        hashes := hashes[start + i := enacted[i]];
      }
    }

    /** The number-index entries of the part of the new branch that was not canonical before. */
    method NewHashEntries(x: Header, change: BestChanged<Header>) returns (hashes: map<nat, H256>)
      requires IsTree(db.store.head.headers, genesis) && DetailsAgree(db.store.head.headers, genesis, db.store.head.details)
      requires bestHeaderHash in db.store.head.headers && FitsOn(db.store.head.headers, x)
      requires IsChange(db.store.head.headers, genesis, bestHeaderHash, x, x, change)
      requires SubMap(detailCache, db.store.head.details)
      modifies this`detailCache
      ensures SubMap(detailCache, db.store.head.details)
      ensures hashes == NewNumbers(db.store.head.headers, genesis, x, change)
      ensures Below(hashes.Keys, NUMBER_LIMIT)
    {
      hide IsTree, Path, TotalScore, IsRoute, NewNumbers;
      NewNumbersOf(db.store.head.headers, genesis, bestHeaderHash, x, change);
      match change {
        case Unchanged =>
          hashes := map[];
        case CanonChainAppended(best) =>
          hashes := map[best.number := best.hash];
        case BranchBecomingCanonChain(best, route) =>
          var ancestor := BlockDetails(route.ancestor);
          hashes := EnactedEntries(ancestor.value.number + 1, route.enacted, Path(db.store.head.headers, genesis, x.parent));
          hashes := hashes[best.number := best.hash];
      }
    }

    method NewDetailEntries(x: Header) returns (details: map<H256, BlockDetails>)
      requires IsTree(db.store.head.headers, genesis) && DetailsAgree(db.store.head.headers, genesis, db.store.head.details)
      requires FitsOn(db.store.head.headers, x)
      requires SubMap(detailCache, db.store.head.details)
      modifies this`detailCache
      ensures SubMap(detailCache, db.store.head.details)
      ensures details == map[x.hash := Details(x.number, TotalScore(db.store.head.headers, genesis, x.parent) + x.score, x.parent)]
    {
      var parent := BlockDetails(x.parent);
      details := map[x.hash := Details(x.number, parent.value.totalScore + x.score, x.parent)];
    }

    /** Stages a header: the batch and the pending fields together describe the inserted tree, while
        everything readable stays as it was until the batch is written and committed. */
    method InsertHeader(batch: Batch, x: Header) returns (batch': Batch, change: Option<BestChanged<Header>>)
      requires Valid()
      requires x.hash !in db.store.head.headers ==> FitsOn(db.store.head.headers, x)
      requires ApplyBatch(db.store, batch).head == db.store.head
      modifies this
      ensures bestHeaderHash == old(bestHeaderHash) && bestProposalHeaderHash == old(bestProposalHeaderHash)
      ensures Ready(ApplyBatch(db.store, batch').head)
      ensures x.hash in db.store.head.headers ==> change == None && batch' == batch && NothingPending()
      ensures x.hash !in db.store.head.headers ==>
                && change.Some?
                && IsChange(db.store.head.headers, genesis, bestHeaderHash, x, x, change.value)
                && pendingBestHeaderHash == (if change.value.Unchanged? then None else Some(x.hash))
                && ApplyBatch(db.store, batch')
                   == ApplyBatch(db.store, batch).(head := Inserted(db.store.head, genesis, x, change.value))
    {
      hide StoreAgrees, CachesAgree, IsChange, IsTree, ApplyBatch, NewNumbers, FitsOn;
      Unpack();
      var known := IsKnownHeader(x.hash);
      if known {
        assert detailCache + pendingDetails == detailCache && hashCache + pendingHashes == hashCache;
        return batch, None;
      }
      var changed, newDetails, newHashes := Plan(x);
      batch' := Stage(batch, x, changed, newDetails, newHashes);
      return batch', Some(changed);
    }

    /** Works out what an insertion changes. */
    method Plan(x: Header) returns (change: BestChanged<Header>, newDetails: map<H256, BlockDetails>, newHashes: map<nat, H256>)
      requires Valid() && x.hash !in db.store.head.headers && FitsOn(db.store.head.headers, x)
      modifies this`headerCache, this`detailCache
      ensures NothingPending() && Below(newHashes.Keys, NUMBER_LIMIT)
      ensures IsChange(db.store.head.headers, genesis, bestHeaderHash, x, x, change)
      ensures Inserted(db.store.head, genesis, x, change) == Staged(db.store.head, x, change, newDetails, newHashes)
      ensures var best := if change.Unchanged? then bestHeaderHash else x.hash;
              StoreAgrees(Staged(db.store.head, x, change, newDetails, newHashes), genesis, best)
      ensures CachesAgree(Staged(db.store.head, x, change, newDetails, newHashes),
                          headerCache, detailCache + newDetails, hashCache + newHashes)
    {
      hide StoreAgrees, CachesAgree, IsChange, Staged, IsTree, DetailsAgree, SubMap, Below;
      Unpack();
      change := BestHeaderChanged(x);
      newHashes := NewHashEntries(x, change);
      newDetails := NewDetailEntries(x);
      InsertedAgrees(db.store.head, genesis, bestHeaderHash, x, change);
      InsertedCaches(db.store.head, genesis, x, change, headerCache, detailCache, hashCache, newDetails, newHashes);
    }

    /** Puts the updates of an insertion in the batch and in the pending fields. */
    method Stage(batch: Batch, x: Header, change: BestChanged<Header>,
                 newDetails: map<H256, BlockDetails>, newHashes: map<nat, H256>) returns (batch': Batch)
      requires NothingPending() && Below(newHashes.Keys, NUMBER_LIMIT)
      modifies this`pendingBestHeaderHash, this`pendingBestProposalHash, this`pendingDetails, this`pendingHashes
      ensures pendingBestHeaderHash == pendingBestProposalHash == (if change.Unchanged? then None else Some(x.hash))
      ensures pendingDetails == newDetails && pendingHashes == newHashes
      ensures ApplyBatch(db.store, batch').body == ApplyBatch(db.store, batch).body
      ensures ApplyBatch(db.store, batch').head == Staged(ApplyBatch(db.store, batch).head, x, change, newDetails, newHashes)
    {
      hide ApplyBatch, PutWrites, Collected;
      ghost var t := ApplyBatch(db.store, batch).head;
      batch' := Push(batch, ToHead(PutHeader(x)));
      ApplyPush(db.store, batch, ToHead(PutHeader(x)));
      if !change.Unchanged? {
        ApplyPush(db.store, batch', ToHead(PutBestHeader(x.hash)));
        batch' := Push(batch', ToHead(PutBestHeader(x.hash)));
        pendingBestHeaderHash := Some(x.hash);
        ApplyPush(db.store, batch', ToHead(PutBestProposalHeader(x.hash)));
        batch' := Push(batch', ToHead(PutBestProposalHeader(x.hash)));
        pendingBestProposalHash := Some(x.hash);
      }
      ghost var batch0, t0 := batch', ApplyBatch(db.store, batch').head;
      ghost var detailListing, hashListing;
      batch', pendingDetails, detailListing := ExtendWithCache(batch', pendingDetails, newDetails, DetailsEntry);
      PutDetailsApply(db.store, batch0, detailListing, t0);
      ghost var batch1, t1 := batch', ApplyBatch(db.store, batch').head;
      batch', pendingHashes, hashListing := ExtendWithCache(batch', pendingHashes, newHashes, NumberEntry);
      PutNumbersApply(db.store, batch1, hashListing, t1);
    }

    /** Makes the staged updates visible once the batch has been written. */
    method Commit()
      requires Ready(db.store.head)
      modifies this
      ensures Valid()
      ensures bestHeaderHash == old(pendingBestHeaderHash.GetOr(bestHeaderHash))
    {
      if pendingBestHeaderHash.Some? {
        bestHeaderHash, pendingBestHeaderHash := pendingBestHeaderHash.value, None;
      }
      if pendingBestProposalHash.Some? {
        bestProposalHeaderHash, pendingBestProposalHash := pendingBestProposalHash.value, None;
      }
      hashCache, pendingHashes := hashCache + pendingHashes, map[];
      detailCache, pendingDetails := detailCache + pendingDetails, map[];
    }

    /** The number index answers with the canonical branch, and with nothing above it. */
    method BlockHash(n: nat) returns (r: Option<H256>)
      requires Valid()
      modifies this`headerCache, this`hashCache
      ensures Valid()
      ensures var path := Path(db.store.head.headers, genesis, bestHeaderHash);
              r == if n < |path| then Some(path[n]) else None
    {
      var best := BlockHeaderData(bestHeaderHash);
      assert best.value.number < NUMBER_LIMIT by {
        assert bestHeaderHash != genesis ==> FitsOn(db.store.head.headers, db.store.head.headers[bestHeaderHash]);
      }
      if best.value.number < n {
        return None;
      }
      r, hashCache := ReadWithCache(db.store.head.numbers, hashCache, n, NumberKey(n));
    }
  }

  /** Halfway up the branch `p`: `cur` is the header reached and `passed` lists those above it, top first. */
  ghost predicate Climbing(p: seq<H256>, cur: Header, passed: seq<H256>) {
    && cur.number < |p| && cur.hash == p[cur.number]
    && |passed| == |p| - 1 - cur.number
    && forall i :: 0 <= i < |passed| ==> passed[i] == p[|p| - 1 - i]
  }

  lemma ClimbsMeet(p: seq<H256>, q: seq<H256>, cur: Header, retracted: seq<H256>, enacted: seq<H256>)
    requires Climbing(p, cur, retracted) && Climbing(q, cur, enacted)
    requires PartAt(p, q, cur.number + 1)
    ensures RouteBetween(p, q, cur.number + 1, TreeRoute(cur.hash, Reverse(enacted), retracted))
  {
    assert retracted == Reverse(p[cur.number + 1..]);
    assert Reverse(enacted) == q[cur.number + 1..];
  }

  lemma RouteFound(hs: Headers, g: H256, from: H256, to: H256, cur: Header, retracted: seq<H256>, enacted: seq<H256>)
    requires IsTree(hs, g) && from in hs && to in hs && Lookup(hs, cur.hash) == Some(cur)
    requires Climbing(Path(hs, g, from), cur, retracted) && Climbing(Path(hs, g, to), cur, enacted)
    requires var p, q, n := Path(hs, g, from), Path(hs, g, to), cur.number + 1; n < |p| && n < |q| ==> p[n] != q[n]
    ensures IsRoute(hs, g, from, to, TreeRoute(cur.hash, Reverse(enacted), retracted))
  {
    hide Path, IsTree, RouteBetween;
    BranchesMeet(hs, g, from, to, cur.number);
    ClimbsMeet(Path(hs, g, from), Path(hs, g, to), cur, retracted, enacted);
  }

  lemma UnpackStore(s: HeaderColumns, g: H256, best: H256)
    requires StoreAgrees(s, g, best)
    ensures IsTree(s.headers, g)
  {
  }

  function GenesisBatch(g: Header): Batch {
    var batch := Push(Empty, ToHead(PutHeader(g)));
    var batch := Push(batch, ToHead(PutDetails(g.hash, Details(0, g.score, g.parent))));
    var batch := Push(batch, ToHead(PutNumber(0, g.hash)));
    var batch := Push(batch, ToHead(PutBestHeader(g.hash)));
    Push(batch, ToHead(PutBestProposalHeader(g.hash)))
  }

  lemma GenesisWritten(s: Store, g: Header)
    requires g.number == 0 && s.head.headers == map[] && s.head.details == map[]
    ensures var s' := ApplyBatch(s, GenesisBatch(g));
            StoreAgrees(s'.head, g.hash, g.hash) && s'.head.headers == map[g.hash := g] && s'.body == s.body
  {
    var b4 := GenesisBatch(g).init;
    var b2 := b4.init.init;
    assert ApplyBatch(s, b2.init) == s.(head := s.head.(headers := map[g.hash := g]));
    assert ApplyBatch(s, b2) == s.(head := s.head.(headers := map[g.hash := g], details := map[g.hash := Details(0, g.score, g.parent)]));
    assert ApplyBatch(s, b4)
        == ApplyBatch(s, b2).(head := ApplyBatch(s, b2).head.(numbers := s.head.numbers[0 := g.hash], bestHeader := Some(g.hash)));
  }
}
