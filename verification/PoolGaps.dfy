/** Short lives of a pool after which a transaction is current although an earlier one of its signer is missing,
    and one after which a restart changes the order of the queues. */
module PoolGaps {
  import opened Prelude
  import opened PoolTypes
  import opened Queues
  import opened PoolIndex
  import opened Placement
  import opened Admission
  import opened Eviction
  import opened Removal
  import opened PoolSteps
  import opened Recovery
  import opened MemPool
  import opened PoolRuns

  const START := Now(0, 0)

  /** Every account is at seq 0 and can pay for a few transactions. */
  function Funded(p: Public): Account { Account(0, 3) }

  /** A transaction without a timelock whose hash and fee are its seq. */
  function Plain(p: Public, n: nat, origin: TxOrigin): Input {
    Input(Tx(n, p, n, n, 1, OtherAction), origin, Timelock(None, None))
  }

  function AddOne(p: Public, n: nat, origin: TxOrigin): AddCall { AddCall([Plain(p, n, origin)], START, Funded) }

  function RemoveOne(n: nat): RemoveCall { RemoveCall({n}, START, Funded) }

  /** The order of a plain transaction whose account is at seq 0. */
  predicate IsPlain(o: Order, n: nat) {
    o.hash == n && o.height == n && o.timelock == Timelock(None, None) && o.memUsage == 1 && o.fee == n
  }

  /** The table holds plain transactions of one signer with these seqs, current below `end`. */
  ghost predicate PlainTable(m: Table, p: Public, seqs: set<nat>, end: nat) {
    && (forall s :: s in m <==> s.signer == p && s.seqNo in seqs)
    && forall s :: s in m ==> IsPlain(m[s].order, s.seqNo) && m[s].tag == if s.seqNo < end then Current else Future
  }

  ghost predicate At(b: PoolState, p: Public, seqs: set<nat>, end: nat) {
    && b.last == START && b.tables.byHash.Keys == seqs && PlainTable(b.tables.bySigner, p, seqs, end)
    && Get(b.first, p, 0) == 0 && Get(b.next, p, 0) == end
  }

  ghost predicate AllFrom(m: Table, origin: TxOrigin) { forall s :: s in m ==> m[s].order.origin == origin }

  /** The end of the run is looked for from the recorded end on. */
  predicate EndsFrom(seqs: set<nat>, end: nat, end': nat) {
    end <= end' && end' !in seqs && forall k :: end <= k < end' ==> k in seqs
  }

  lemma EndIsUnique(seqs: set<nat>, end: nat, a: nat, b: nat)
    requires EndsFrom(seqs, end, a) && EndsFrom(seqs, end, b)
    ensures a == b
  {
  }

  // ----- adding one transaction -----

  /** The transaction is accepted: it is local, or it pays more than some transaction of a full queue. */
  ghost predicate Welcome(a: PoolState, n: nat, origin: TxOrigin) {
    var q := OrdersIn(a.tables.bySigner, Current);
    origin == Local || (a.rules.minimalFee == 0 && (|q| < a.rules.countLimit || q == {} || Outbids(q, n)))
  }

  function ItemFor(a: PoolState, p: Public, n: nat, origin: TxOrigin): Item {
    Stored(Plain(p, n, origin), OriginFor(Plain(p, n, origin), a.tables.locals), START, a.tables.nextId)
  }

  lemma OneEnters(a: PoolState, p: Public, seqs: set<nat>, end: nat, n: nat, origin: TxOrigin)
    requires At(a, p, seqs, end) && n !in seqs && n <= 3 && Welcome(a, n, origin) && origin != RetractedBlock
    ensures !PanicsOn(a, AddOne(p, n, origin))
    ensures var t := Replayed(a, AddOne(p, n, origin));
            && t.bySigner == a.tables.bySigner[Slot(p, n) := Tagged(ForTransaction(ItemFor(a, p, n, origin), 0), New)]
            && t.byHash == a.tables.byHash[n := ItemFor(a, p, n, origin)]
            && t.locals == a.tables.locals + LocalSigner(Plain(p, n, origin))
  {
    hide OrdersIn, Outbids;
    var c, input := AddOne(p, n, origin), Plain(p, n, origin);
    assert Slot(p, n) !in a.tables.bySigner;
    assert c.inputs[..0] == [] && c.inputs[..|c.inputs| - 1] == [];
    assert Replay(a.rules, a.tables, [], START, Funded) == a.tables;
    assert Accepts(a.rules, a.tables, input.tx, OriginFor(input, a.tables.locals), Funded(p));
    assert Judge(a.rules, a.tables, input, Funded).None?;
    assert !ClashesAt(a.rules, a.tables, c.inputs, 0, START, Funded);
  }

  /** The table after the first pass: one transaction is new, the others are where they were. */
  ghost predicate OneNew(m: Table, p: Public, seqs: set<nat>, n: nat) {
    && (forall s :: s in m <==> s.signer == p && s.seqNo in seqs)
    && forall s :: s in m ==> IsPlain(m[s].order, s.seqNo) && (m[s].tag == New <==> s.seqNo == n)
  }

  lemma OneNewAfter(m: Table, p: Public, seqs: set<nat>, end: nat, n: nat, o: Order)
    requires PlainTable(m, p, seqs, end) && IsPlain(o, n) && n !in seqs
    ensures OneNew(m[Slot(p, n) := Tagged(o, New)], p, seqs + {n}, n)
  {
  }

  lemma OneNewEnd(m: Table, first: map<Public, nat>, next: map<Public, nat>, p: Public, seqs: set<nat>, n: nat)
    requires OneNew(m, p, seqs, n) && n in seqs && Get(first, p, 0) == 0
    ensures EndsFrom(seqs, Get(next, p, 0), NewEnd(m, first, next, 0, START, START, p))
  {
    var end := Get(next, p, 0);
    forall k: nat ensures StopsAt(m, p, k, end, START) <==> end <= k && k !in seqs {
      assert Slot(p, k) in m <==> k in seqs;
    }
  }

  lemma OneNewSettled(m: Table, p: Public, seqs: set<nat>, n: nat, ends: map<Public, nat>, locals: set<Public>)
    requires OneNew(m, p, seqs, n) && p in ends && Signers(m) <= ends.Keys
    ensures PlainTable(SettledTable(m, Funded, ends, locals), p, seqs, ends[p])
    ensures forall s :: s in m ==>
              SettledTable(m, Funded, ends, locals)[s].order.origin
              == if p in locals && m[s].tag != New then Local else m[s].order.origin
  {
  }

  lemma StagedOne(a: PoolState, p: Public, seqs: set<nat>, end: nat, n: nat, origin: TxOrigin) returns (end': nat)
    requires At(a, p, seqs, end) && n !in seqs && n <= 3 && Welcome(a, n, origin) && origin != RetractedBlock
    requires origin == External ==> p !in a.tables.locals
    ensures EndsFrom(seqs + {n}, end, end') && PlainTable(Staged(a, AddOne(p, n, origin)), p, seqs + {n}, end')
    ensures p in AddEnds(a, AddOne(p, n, origin)) && AddEnds(a, AddOne(p, n, origin))[p] == end'
    ensures var staged := Staged(a, AddOne(p, n, origin));
            forall s :: s in staged ==>
              staged[s].order.origin
              == if s.seqNo == n || (origin == Local && p !in a.tables.locals) then origin
                 else if s in a.tables.bySigner then a.tables.bySigner[s].order.origin else origin
  {
    hide Panics, Welcome, Replay, SettledTable, NewEnd, OneNew, EndsFrom;
    var c, o := AddOne(p, n, origin), ForTransaction(ItemFor(a, p, n, origin), 0);
    OneEnters(a, p, seqs, end, n, origin);
    var m := Replayed(a, c).bySigner;
    OneNewAfter(a.tables.bySigner, p, seqs, end, n, o);
    assert Slot(p, n) in m && Slot(p, n).signer in Signers(m);
    OneNewEnd(m, a.first, a.next, p, seqs + {n}, n);
    var locals := LocalSigners(c.inputs) - a.tables.locals;
    OneNewSettled(m, p, seqs + {n}, n, AddEnds(a, c), locals);
    OneLocal(p, n, origin);
    end' := AddEnds(a, c)[p];
  }

  lemma OneLocal(p: Public, n: nat, origin: TxOrigin)
    ensures LocalSigners(AddOne(p, n, origin).inputs) == if origin == Local then {p} else {}
  {
    assert Plain(p, n, origin) in AddOne(p, n, origin).inputs;
  }

  /** The limits leave the transactions with these seqs. */
  ghost predicate Keeps(m: Table, kept: set<nat>, limit: nat, memLimit: nat) {
    forall s :: s in m ==> (s.seqNo in kept <==> !Evicted(m, s, limit, memLimit))
  }

  lemma PlainEvicted(m: Table, p: Public, seqs: set<nat>, end: nat, limit: nat, memLimit: nat, kept: set<nat>)
    requires PlainTable(m, p, seqs, end) && kept <= seqs
    requires Keeps(m, kept, limit, memLimit)
    ensures PlainTable(EvictedTable(m, limit, memLimit), p, kept, end)
  {
    hide Evicted;
  }

  lemma PlainItems(items: map<H256, Item>, m: Table, p: Public, seqs: set<nat>, end: nat)
    requires Linked(items, m) && PlainTable(m, p, seqs, end) && items.Keys == seqs
    ensures forall k :: k in items ==> SlotOf(items[k]) == Slot(p, k)
  {
    hide Describes;
    forall k | k in items ensures SlotOf(items[k]) == Slot(p, k) {
      assert Slot(p, k) in m && m[Slot(p, k)].order.hash == k;
    }
  }

  lemma PlainItemsOf(items: map<H256, Item>, m: Table, p: Public, seqs: set<nat>, end: nat)
    requires PlainTable(m, p, seqs, end) && seqs <= items.Keys && forall k :: k in items ==> SlotOf(items[k]) == Slot(p, k)
    ensures ItemsOf(items, m).Keys == seqs
  {
    forall k ensures k in ItemsOf(items, m) <==> k in seqs {
      if k in seqs {
        assert Slot(p, k) in m;
      }
    }
  }

  lemma AddedItems(a: PoolState, p: Public, seqs: set<nat>, end: nat, n: nat, origin: TxOrigin, m: Table, end': nat, kept: set<nat>)
    requires Linked(a.tables.byHash, a.tables.bySigner) && At(a, p, seqs, end) && kept <= seqs + {n} && PlainTable(m, p, kept, end')
    ensures ItemsOf(a.tables.byHash[n := ItemFor(a, p, n, origin)], m).Keys == kept
    ensures SubMap(ItemsOf(a.tables.byHash[n := ItemFor(a, p, n, origin)], m), a.tables.byHash[n := ItemFor(a, p, n, origin)])
  {
    hide Linked, ItemFor, PlainTable;
    OneItem(a, p, n, origin);
    PlainItems(a.tables.byHash, a.tables.bySigner, p, seqs, end);
    PlainItemsOf(a.tables.byHash[n := ItemFor(a, p, n, origin)], m, p, kept, end');
  }

  lemma AddedSeqs(a: PoolState, p: Public, n: nat, origin: TxOrigin, b: PoolState)
    requires IsAddition(a, AddOne(p, n, origin), b) && Slot(p, n) in Staged(a, AddOne(p, n, origin))
    requires Replayed(a, AddOne(p, n, origin)).locals == a.tables.locals + LocalSigner(Plain(p, n, origin))
    ensures p in AddEnds(a, AddOne(p, n, origin))
    ensures Get(b.first, p, 0) == 0 && Get(b.next, p, 0) == AddEnds(a, AddOne(p, n, origin))[p]
    ensures p in b.tables.locals <==> p in a.tables.locals || origin == Local
  {
    hide EvictedTable, ItemsOf, Replay, NewEnd;
    var c := AddOne(p, n, origin);
    assert Slot(p, n).signer in Signers(Staged(a, c)) && Slot(p, n).signer in Signers(Replayed(a, c).bySigner);
    assert p !in {};
  }

  /** The pool after an addition that leaves the transactions with the seqs in `kept`. */
  lemma AddedOne(a: PoolState, p: Public, seqs: set<nat>, end: nat, n: nat, origin: TxOrigin, end': nat, kept: set<nat>, b: PoolState)
    requires Linked(a.tables.byHash, a.tables.bySigner) && At(a, p, seqs, end)
    requires n !in seqs && n <= 3 && Welcome(a, n, origin) && origin != RetractedBlock
    requires kept <= seqs + {n} && PlainTable(b.tables.bySigner, p, kept, end')
    requires PlainTable(Staged(a, AddOne(p, n, origin)), p, seqs + {n}, end')
    requires p in AddEnds(a, AddOne(p, n, origin)) && AddEnds(a, AddOne(p, n, origin))[p] == end'
    requires IsAddition(a, AddOne(p, n, origin), b)
    ensures At(b, p, kept, end') && (p in b.tables.locals <==> p in a.tables.locals || origin == Local)
    ensures SubMap(b.tables.byHash, a.tables.byHash[n := ItemFor(a, p, n, origin)])
  {
    hide Panics, Welcome, Replay, EvictedTable, Staged, Linked, ItemFor, AddEnds, SubMap, ItemsOf, SeqsSettled, StillLocal, Signers;
    OneEnters(a, p, seqs, end, n, origin);
    AddedItems(a, p, seqs, end, n, origin, b.tables.bySigner, end', kept);
    AddedSeqs(a, p, n, origin, b);
  }

  lemma OneItem(a: PoolState, p: Public, n: nat, origin: TxOrigin)
    ensures SlotOf(ItemFor(a, p, n, origin)) == Slot(p, n)
    ensures p !in a.tables.locals || origin == Local ==> ItemFor(a, p, n, origin).origin == origin
  {
  }

  // ----- limits -----

  lemma LocalsStay(m: Table, limit: nat, memLimit: nat)
    requires AllFrom(m, Local)
    ensures forall s :: s in m ==> !Evicted(m, s, limit, memLimit)
  {
    forall s | s in m ensures !Evicted(m, s, limit, memLimit) {
      var q := OrdersIn(m, m[s].tag);
      assert Externals(q) == {};
      ExternalMemOfExternals(q);
    }
  }

  /** A local transaction is added to a pool that it makes all local. */
  method AddLocal(pool: MemPool, p: Public, n: nat, ghost seqs: set<nat>, ghost end: nat, ghost seqs': set<nat>, ghost end': nat)
    requires pool.Valid() && At(pool.State(), p, seqs, end) && n !in seqs && n <= 3
    requires seqs' == seqs + {n} && EndsFrom(seqs', end, end')
    requires p !in pool.isLocalAccount || AllFrom(pool.bySigner, Local)
    modifies pool
    ensures At(pool.State(), p, seqs', end') && AllFrom(pool.bySigner, Local)
    ensures forall k :: k in seqs ==> k in pool.byHash && k in old(pool.byHash) && pool.byHash[k] == old(pool.byHash)[k]
    ensures pool.Valid()
  {
    hide Synced, AllPlaced, IdsBelow, Linked, At, EndsFrom, IsAddition, PanicsOn, IsEviction, PlainTable, Staged, AddEnds, Externals,
         OrdersIn, ToDrop, Evicted, EvictedTable;
    ghost var a, c := pool.State(), AddOne(p, n, Local);
    ghost var e := StagedOne(a, p, seqs, end, n, Local);
    EndIsUnique(seqs', end, e, end');
    OneEnters(a, p, seqs, end, n, Local);
    var panicked, outcomes := pool.Add([Plain(p, n, Local)], START, Funded);
    StagedLocal(a, p, seqs, end, n, end');
    AddedLocal(a, p, seqs, end, n, end', pool.State());
    LinkedIx(old(pool.Ix()));
    AddedOne(a, p, seqs, end, n, Local, end', seqs + {n}, pool.State());
    KeysAt(a, p, seqs, end);
    KeysAt(pool.State(), p, seqs + {n}, end');
  }

  lemma KeysAt(b: PoolState, p: Public, seqs: set<nat>, end: nat)
    requires At(b, p, seqs, end)
    ensures b.tables.byHash.Keys == seqs
  {
  }

  lemma StagedLocal(a: PoolState, p: Public, seqs: set<nat>, end: nat, n: nat, end': nat)
    requires At(a, p, seqs, end) && (p !in a.tables.locals || AllFrom(a.tables.bySigner, Local))
    requires PlainTable(Staged(a, AddOne(p, n, Local)), p, seqs + {n}, end')
    requires var staged := Staged(a, AddOne(p, n, Local));
             forall s :: s in staged ==>
               staged[s].order.origin
               == if s.seqNo == n || p !in a.tables.locals then Local
                  else if s in a.tables.bySigner then a.tables.bySigner[s].order.origin else Local
    ensures AllFrom(Staged(a, AddOne(p, n, Local)), Local)
  {
    hide Staged;
  }

  lemma AddedLocal(a: PoolState, p: Public, seqs: set<nat>, end: nat, n: nat, end': nat, b: PoolState)
    requires IsAddition(a, AddOne(p, n, Local), b)
    requires PlainTable(Staged(a, AddOne(p, n, Local)), p, seqs + {n}, end') && AllFrom(Staged(a, AddOne(p, n, Local)), Local)
    ensures PlainTable(b.tables.bySigner, p, seqs + {n}, end') && AllFrom(b.tables.bySigner, Local)
  {
    hide Staged, Evicted, SeqsSettled, ItemsOf, StillLocal;
    var m := Staged(a, AddOne(p, n, Local));
    LocalsStay(m, a.rules.countLimit, a.memoryLimit);
    PlainEvicted(m, p, seqs + {n}, end', a.rules.countLimit, a.memoryLimit, seqs + {n});
  }

  // ----- removing one transaction -----

  lemma PurgedPlain(m: Table, p: Public, seqs: set<nat>, end: nat, n: nat)
    requires PlainTable(m, p, seqs, end) && n in seqs
    ensures PlainTable(Purged(m, {n}), p, seqs - {n}, end) && LowestLost(m, {n}, p, 0) == Some(n)
  {
    assert Slot(p, n) in m && Slot(p, n).seqNo in Lost(m, {n}, p, 0);
    assert Lost(m, {n}, p, 0) == {n};
  }

  lemma PlainSettled(m: Table, p: Public, seqs: set<nat>, end: nat, ends: map<Public, nat>, end': nat)
    requires PlainTable(m, p, seqs, end) && Signers(m) <= ends.Keys && (seqs != {} ==> p in ends && ends[p] == end')
    ensures PlainTable(SettledTable(m, Funded, ends, {}), p, seqs, end')
  {
  }

  /** The run is taken to end at the seq that was removed; if nothing is left, the old end stays recorded. */
  lemma RemovedOne(a: PoolState, p: Public, seqs: set<nat>, end: nat, n: nat, b: PoolState)
    requires Linked(a.tables.byHash, a.tables.bySigner) && At(a, p, seqs, end) && n in seqs && IsRemoval(a, RemoveOne(n), b)
    ensures At(b, p, seqs - {n}, if seqs == {n} then end else n)
  {
    hide Linked, Purged, SettledTable, ItemsOf, PlainTable, LowestLost, StillLocal, RunEnd;
    var m, ends, end' := a.tables.bySigner, RemoveEnds(a, RemoveOne(n)), if seqs == {n} then end else n;
    PurgedPlain(m, p, seqs, end, n);
    PlainSigner(Purged(m, {n}), p, seqs - {n}, end);
    assert p in ends ==> ends[p] == n;
    PlainSettled(Purged(m, {n}), p, seqs - {n}, end, ends, end');
    PlainItems(a.tables.byHash, m, p, seqs, end);
    PlainItemsOf(a.tables.byHash, b.tables.bySigner, p, seqs - {n}, end');
    assert p !in {};
  }

  lemma PlainSigner(m: Table, p: Public, seqs: set<nat>, end: nat)
    requires PlainTable(m, p, seqs, end)
    ensures p in Signers(m) <==> seqs != {}
  {
    if seqs != {} {
      var n :| n in seqs;
      assert Slot(p, n) in m && Slot(p, n).signer in Signers(m);
    }
  }

  // ----- a panic -----

  /** Two different funded local transactions for one slot in one batch. */
  method TwoForOneSlotPanic(a: Tx, b: Tx, now: Now, fetch: Public -> Account, limit: nat, memoryLimit: nat, feeBumpShift: nat)
      returns (panicked: bool)
    requires Slot(a.signer, a.seqNo) == Slot(b.signer, b.seqNo) && a.hash != b.hash
    requires fetch(a.signer).seqNo <= a.seqNo && a.fee <= fetch(a.signer).balance && b.fee <= fetch(a.signer).balance
    ensures panicked
  {
    hide Synced, AllPlaced, IdsBelow, IsAddition, IsEviction, Panics;
    var pool := new MemPool(limit, memoryLimit, feeBumpShift, map[]);
    TwoForOneSlot(pool.Policy(), a, b, now, fetch);
    var outcomes;
    panicked, outcomes := pool.Add([Input(a, Local, Timelock(None, None)), Input(b, Local, Timelock(None, None))], now, fetch);
  }

  // ----- gaps -----

  /** A transaction is current although the signer has none with an earlier seq that is next for its account. */
  ghost predicate HasGap(m: Table, p: Public, missing: nat, n: nat) {
    && Funded(p).seqNo <= missing < n && Slot(p, missing) !in m
    && Slot(p, n) in m && m[Slot(p, n)].tag == Current
  }

  lemma GapAt(b: PoolState, p: Public, seqs: set<nat>, end: nat, missing: nat, n: nat)
    requires At(b, p, seqs, end) && missing !in seqs && n in seqs && missing < n < end
    ensures HasGap(b.tables.bySigner, p, missing, n)
  {
    assert Slot(p, n) in b.tables.bySigner;
  }

  lemma GapIsNoRun(m: Table, p: Public, missing: nat, n: nat)
    requires HasGap(m, p, missing, n)
    ensures !CurrentIsRun(m, Funded, START, p)
  {
    forall end ensures !CurrentUpTo(m, p, Funded(p).seqNo, end, START) {
      assert Slot(p, n) in m && Slot(p, missing) !in m;
    }
  }

  /** Seqs 0, 2 and 3 are added and 3, which waits for 1, is removed: now 2 is current. */
  method RemovingFutureLeavesGap(p: Public, limit: nat, memoryLimit: nat, feeBumpShift: nat) returns (pool: MemPool)
    ensures fresh(pool) && pool.Valid() && HasGap(pool.bySigner, p, 1, 2) && !CurrentIsRun(pool.bySigner, Funded, START, p)
  {
    hide Synced, AllPlaced, IdsBelow, Linked, At, IsRemoval, HasGap, CurrentIsRun;
    pool := new MemPool(limit, memoryLimit, feeBumpShift, map[]);
    EmptyAt(pool.State(), p);
    AddLocal(pool, p, 0, {}, 0, {0}, 1);
    AddLocal(pool, p, 2, {0}, 1, {0, 2}, 1);
    AddLocal(pool, p, 3, {0, 2}, 1, {0, 2, 3}, 1);
    ghost var a := pool.State();
    LinkedIx(pool.Ix());
    assert {0, 2, 3} - {3} == {0, 2};
    pool.Remove([3], Funded, START);
    assert Elements<H256>([3]) == {3};
    RemovedOne(a, p, {0, 2, 3}, 1, 3, pool.State());
    GapAt(pool.State(), p, {0, 2}, 3, 1, 2);
    GapIsNoRun(pool.bySigner, p, 1, 2);
  }

  /** Seq 0 is added and removed, and then 1 is added: it is current. */
  method RemovingAllLeavesGap(p: Public, limit: nat, memoryLimit: nat, feeBumpShift: nat) returns (pool: MemPool)
    ensures fresh(pool) && pool.Valid() && HasGap(pool.bySigner, p, 0, 1) && !CurrentIsRun(pool.bySigner, Funded, START, p)
  {
    hide Synced, AllPlaced, IdsBelow, Linked, At, IsRemoval, HasGap, CurrentIsRun, AllFrom;
    pool := new MemPool(limit, memoryLimit, feeBumpShift, map[]);
    EmptyAt(pool.State(), p);
    AddLocal(pool, p, 0, {}, 0, {0}, 1);
    ghost var a := pool.State();
    LinkedIx(pool.Ix());
    pool.Remove([0], Funded, START);
    assert Elements<H256>([0]) == {0} && {0} - {0} == {};
    RemovedOne(a, p, {0}, 1, 0, pool.State());
    NoneLeft(pool.State(), p, 1);
    AddLocal(pool, p, 1, {}, 1, {1}, 2);
    GapAt(pool.State(), p, {1}, 2, 0, 1);
    GapIsNoRun(pool.bySigner, p, 0, 1);
  }

  lemma EmptyAt(b: PoolState, p: Public)
    requires b.tables == Tables(map[], map[], {}, 0) && b.first == map[] && b.next == map[] && b.last == START
    ensures At(b, p, {}, 0)
  {
  }

  lemma NoneLeft(b: PoolState, p: Public, end: nat)
    requires At(b, p, {}, end)
    ensures AllFrom(b.tables.bySigner, Local)
  {
  }

  // ----- an eviction -----

  lemma FirstStays(m: Table, p: Public, limit: nat, memLimit: nat)
    requires PlainTable(m, p, {0}, 1) && limit > 0 && memLimit > 0
    ensures Keeps(m, {0}, limit, memLimit)
  {
    forall s | s in m ensures !Evicted(m, s, limit, memLimit) {
      var q := OrdersIn(m, m[s].tag);
      assert s == Slot(p, 0);
      assert q == {m[s].order};
      SubsetSize(Externals(q), q);
      MemMonotone(q, q);
      MemRemove(q, m[s].order);
      assert q - {m[s].order} == {};
    }
  }

  lemma SecondGoes(m: Table, p: Public, memLimit: nat)
    requires PlainTable(m, p, {0, 1}, 2) && AllFrom(m, External) && memLimit > 0
    ensures Keeps(m, {0}, 1, memLimit)
  {
    var a, b := m[Slot(p, 0)].order, m[Slot(p, 1)].order;
    var q := OrdersIn(m, Current);
    forall o ensures o in q <==> o in {a, b} {
      if o in q {
        var s :| s in m && m[s] == Tagged(o, Current);
        assert s == Slot(p, 0) || s == Slot(p, 1);
      }
    }
    assert q == {a, b} && Externals(q) == {a, b} && a != b;
    HeightDecides(a, b);
    NotBoth(a, b);
    assert Upto(q, a) == {a} && Upto(q, b) == {a, b};
    MemRemove({a}, a);
    assert {a} - {a} == {};
    forall s | s in m ensures s.seqNo in {0} <==> !Evicted(m, s, 1, memLimit) {
      assert s == Slot(p, 0) || s == Slot(p, 1);
    }
  }

  /** An external transaction is added to a pool that knows no local account; `kept` is what the limits leave. */
  method AddExternal(pool: MemPool, p: Public, n: nat, ghost seqs: set<nat>, ghost end: nat, ghost seqs': set<nat>, ghost end': nat,
                     ghost kept: set<nat>)
    requires pool.Valid() && At(pool.State(), p, seqs, end) && n !in seqs && n <= 3 && Welcome(pool.State(), n, External)
    requires seqs' == seqs + {n} && EndsFrom(seqs', end, end') && kept <= seqs'
    requires p !in pool.isLocalAccount && AllFrom(pool.bySigner, External)
    requires forall m :: PlainTable(m, p, seqs', end') && AllFrom(m, External) ==> Keeps(m, kept, pool.countLimit, pool.memoryLimit)
    modifies pool
    ensures At(pool.State(), p, kept, end') && AllFrom(pool.bySigner, External) && p !in pool.isLocalAccount
    ensures pool.Policy() == old(pool.Policy())
    ensures forall k :: k in pool.byHash && k != n ==> k in old(pool.byHash) && pool.byHash[k] == old(pool.byHash)[k]
    ensures n in pool.byHash ==> pool.byHash[n].origin == External
    ensures pool.Valid()
  {
    hide Synced, AllPlaced, IdsBelow, Linked, At, EndsFrom, IsAddition, PanicsOn, IsEviction, PlainTable, Staged, AddEnds, Externals,
         OrdersIn, ToDrop, Evicted, EvictedTable, Welcome, ItemFor, Keeps;
    ghost var a, c := pool.State(), AddOne(p, n, External);
    ghost var e := StagedOne(a, p, seqs, end, n, External);
    EndIsUnique(seqs', end, e, end');
    OneEnters(a, p, seqs, end, n, External);
    OneItem(a, p, n, External);
    var panicked, outcomes := pool.Add([Plain(p, n, External)], START, Funded);
    StagedExternal(a, p, n, seqs', end');
    AddedExternal(a, p, n, seqs', end', kept, pool.State());
    LinkedIx(old(pool.Ix()));
    AddedOne(a, p, seqs, end, n, External, end', kept, pool.State());
  }

  lemma StagedExternal(a: PoolState, p: Public, n: nat, seqs: set<nat>, end: nat)
    requires AllFrom(a.tables.bySigner, External) && PlainTable(Staged(a, AddOne(p, n, External)), p, seqs, end)
    requires var staged := Staged(a, AddOne(p, n, External));
             forall s :: s in staged ==>
               staged[s].order.origin
               == if s.seqNo == n then External else if s in a.tables.bySigner then a.tables.bySigner[s].order.origin else External
    ensures AllFrom(Staged(a, AddOne(p, n, External)), External)
  {
    hide Staged;
  }

  lemma AddedExternal(a: PoolState, p: Public, n: nat, seqs: set<nat>, end: nat, kept: set<nat>, b: PoolState)
    requires IsAddition(a, AddOne(p, n, External), b) && kept <= seqs
    requires var m := Staged(a, AddOne(p, n, External));
             && PlainTable(m, p, seqs, end) && AllFrom(m, External)
             && Keeps(m, kept, a.rules.countLimit, a.memoryLimit)
    ensures PlainTable(b.tables.bySigner, p, kept, end) && AllFrom(b.tables.bySigner, External) && b.rules == a.rules
  {
    hide Staged, Evicted, SeqsSettled, ItemsOf, StillLocal;
    PlainEvicted(Staged(a, AddOne(p, n, External)), p, seqs, end, a.rules.countLimit, a.memoryLimit, kept);
  }

  /** With room for one external transaction, seq 0 stays and 1 is refused for the limit, but the run is recorded to
      end at 2: a local 2 is current. */
  method EvictionLeavesGap(p: Public, memoryLimit: nat, feeBumpShift: nat) returns (pool: MemPool)
    requires memoryLimit > 0
    ensures fresh(pool) && pool.Valid() && HasGap(pool.bySigner, p, 1, 2) && !CurrentIsRun(pool.bySigner, Funded, START, p)
  {
    hide Synced, AllPlaced, IdsBelow, Linked, At, HasGap, CurrentIsRun, AllFrom, PlainTable, Keeps, Welcome;
    pool := new MemPool(1, memoryLimit, feeBumpShift, map[]);
    EmptyAt(pool.State(), p);
    forall m | PlainTable(m, p, {0}, 1) && AllFrom(m, External)
      ensures Keeps(m, {0}, 1, memoryLimit)
    {
      FirstStays(m, p, 1, memoryLimit);
    }
    EmptyWelcome(pool.State());
    AddExternal(pool, p, 0, {}, 0, {0}, 1, {0});
    forall m | PlainTable(m, p, {0, 1}, 2) && AllFrom(m, External)
      ensures Keeps(m, {0}, 1, memoryLimit)
    {
      SecondGoes(m, p, memoryLimit);
    }
    NextWelcome(pool.State(), p, {0}, 1, 0, 1);
    AddExternal(pool, p, 1, {0}, 1, {0, 1}, 2, {0});
    AddLocal(pool, p, 2, {0}, 2, {0, 2}, 3);
    GapAt(pool.State(), p, {0, 2}, 3, 1, 2);
    GapIsNoRun(pool.bySigner, p, 1, 2);
  }

  lemma EmptyWelcome(a: PoolState)
    requires a.tables.bySigner == map[] && a.rules.minimalFee == 0
    ensures Welcome(a, 0, External) && AllFrom(a.tables.bySigner, External)
  {
    assert OrdersIn(map[], Current) == {};
  }

  lemma NextWelcome(a: PoolState, p: Public, seqs: set<nat>, end: nat, k: nat, n: nat)
    requires At(a, p, seqs, end) && a.rules.minimalFee == 0 && k in seqs && k < end && k < n
    ensures Welcome(a, n, External)
  {
    var o := a.tables.bySigner[Slot(p, k)].order;
    assert a.tables.bySigner[Slot(p, k)].tag == Current;
    assert o in OrdersIn(a.tables.bySigner, Current) && o.fee < n;
  }

  // ----- a restart -----

  /** An external transaction becomes local with its account, but not in the backup: after a restart it is external
      again, and the queues sort differently. */
  method RestartForgetsLocal(p: Public, limit: nat, memoryLimit: nat, feeBumpShift: nat) returns (pool: MemPool, again: MemPool)
    requires limit > 0 && memoryLimit > 0
    ensures fresh(pool) && fresh(again) && pool.Valid() && again.Valid() && again.byHash == pool.byHash
    ensures AllCurrentAreRuns(pool.bySigner, Funded, START) && AllCurrentAreRuns(again.bySigner, Funded, START)
    ensures Slot(p, 0) in pool.bySigner && pool.bySigner[Slot(p, 0)].order.origin == Local
    ensures Slot(p, 0) in again.bySigner && again.bySigner[Slot(p, 0)].order.origin == External
  {
    hide Synced, AllPlaced, IdsBelow, Linked, At, AllFrom, PlainTable, Keeps, Welcome, AllCurrentAreRuns, FromItems;
    pool := new MemPool(limit, memoryLimit, feeBumpShift, map[]);
    EmptyAt(pool.State(), p);
    forall m | PlainTable(m, p, {0}, 1) && AllFrom(m, External)
      ensures Keeps(m, {0}, limit, memoryLimit)
    {
      FirstStays(m, p, limit, memoryLimit);
    }
    EmptyWelcome(pool.State());
    AddExternal(pool, p, 0, {}, 0, {0}, 1, {0});
    KeysAt(pool.State(), p, {0}, 1);
    AddLocal(pool, p, 1, {0}, 1, {0, 1}, 2);
    KeysAt(pool.State(), p, {0, 1}, 2);
    LocalAt(pool.State(), p, {0, 1}, 2, 0);
    RunsAt(pool.State(), p, {0, 1}, 2);
    var overflowed;
    overflowed, again := Restart(pool, Funded, START);
    LinkedIx(pool.Ix());
    LinkedIx(again.Ix());
    SameSlots(pool.byHash, pool.bySigner, again.bySigner);
    OriginFollows(again.bySigner, again.byHash, Slot(p, 0));
  }

  lemma LocalAt(b: PoolState, p: Public, seqs: set<nat>, end: nat, n: nat)
    requires At(b, p, seqs, end) && AllFrom(b.tables.bySigner, Local) && n in seqs
    ensures Slot(p, n) in b.tables.bySigner
    ensures b.tables.bySigner[Slot(p, n)].order.origin == Local && b.tables.bySigner[Slot(p, n)].order.hash == n
  {
  }

  lemma RunsAt(b: PoolState, p: Public, seqs: set<nat>, end: nat)
    requires At(b, p, seqs, end) && forall n: nat :: n in seqs <==> n < end
    ensures AllCurrentAreRuns(b.tables.bySigner, Funded, START)
  {
    var m := b.tables.bySigner;
    forall q ensures CurrentIsRun(m, Funded, START, q) {
      if q == p {
        assert CurrentUpTo(m, q, Funded(q).seqNo, end, START);
      } else {
        assert CurrentUpTo(m, q, Funded(q).seqNo, 0, START);
      }
    }
  }

  lemma OriginFollows(m: Table, items: map<H256, Item>, s: Slot)
    requires FromItems(m, items, Funded) && s in m
    ensures m[s].order.hash in items && m[s].order.origin == items[m[s].order.hash].origin
  {
  }
}
