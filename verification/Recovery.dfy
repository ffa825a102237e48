/** Rebuilding a pool from its backup, on values (core/src/miner/mem_pool.rs, `recover_from_db`). */
module Recovery {
  import opened Prelude
  import opened PoolTypes
  import opened Queues
  import opened PoolIndex
  import opened Placement
  import opened PoolSteps

  ghost predicate IdsBelow(byHash: map<H256, Item>, limit: nat) { forall h :: h in byHash ==> byHash[h].id < limit }

  /** The backup of a pool: items under their hashes, one per slot, with different ids. */
  ghost predicate IsBackup(db: map<H256, Item>) {
    && (forall h :: h in db ==> db[h].tx.hash == h)
    && (forall h, k :: h in db && k in db && SlotOf(db[h]) == SlotOf(db[k]) ==> h == k)
    && DistinctIds(db)
  }

  /** What a pool leaves in its backup. */
  lemma PoolIsBackup(ix: Index)
    requires Synced(ix)
    ensures IsBackup(ix.byHash)
  {
    hide Holds, CurrentQueue.Ok, FutureQueue.Ok, Describes;
  }

  predicate IsOld(item: Item, fetch: Public -> Account) { item.tx.seqNo < fetch(item.tx.signer).seqNo }

  /** An account has moved past a stored transaction, whose height would be negative. */
  ghost predicate HasOld(db: map<H256, Item>, fetch: Public -> Account) { exists h :: h in db && IsOld(db[h], fetch) }

  lemma StoredItem(db: map<H256, Item>, h: H256)
    requires IsBackup(db) && h in db
    ensures db[h].tx.hash == h
  {
  }

  /** All stored items but those in `rest` have been loaded. */
  ghost predicate Part(db: map<H256, Item>, rest: set<H256>, byHash: map<H256, Item>) {
    rest <= db.Keys && byHash == db - rest
  }

  lemma FreshSlot(db: map<H256, Item>, ix: Index, rest: set<H256>, h: H256)
    requires IsBackup(db) && Synced(ix) && Part(db, rest, ix.byHash) && h in rest && h in db
    ensures h !in ix.byHash && SlotOf(db[h]) !in ix.bySigner
    ensures forall k :: k in ix.byHash ==> ix.byHash[k].id != db[h].id
    ensures Part(db, rest - {h}, ix.byHash[h := db[h]])
  {
    hide Describes, Holds, CurrentQueue.Ok, FutureQueue.Ok;
  }

  lemma MoreIds(byHash: map<H256, Item>, maxId: nat, item: Item)
    requires IdsBelow(byHash, maxId + 1)
    ensures IdsBelow(byHash[item.tx.hash := item], (if item.id > maxId then item.id else maxId) + 1)
  {
  }

  /** Every order is the one that its item gets with the present account seq. */
  ghost predicate FromItems(m: Table, items: map<H256, Item>, fetch: Public -> Account) {
    forall s :: s in m ==>
      && m[s].order.hash in items && SlotOf(items[m[s].order.hash]) == s && fetch(s.signer).seqNo <= s.seqNo
      && m[s].order == ForTransaction(items[m[s].order.hash], fetch(s.signer).seqNo)
  }

  ghost predicate AllNew(m: Table) { forall s :: s in m ==> m[s].tag == New }

  ghost function LocalOwners(items: map<H256, Item>): set<Public> {
    set h | h in items && items[h].origin == Local :: items[h].tx.signer
  }

  lemma OwnersInWords(items: map<H256, Item>)
    ensures forall p :: p in LocalOwners(items) <==> exists h :: h in items && items[h].origin == Local && items[h].tx.signer == p
  {
  }

  lemma LoadedOne(m: Table, items: map<H256, Item>, fetch: Public -> Account, item: Item)
    requires FromItems(m, items, fetch) && AllNew(m)
    requires item.tx.hash !in items && SlotOf(item) !in m && fetch(item.tx.signer).seqNo <= item.tx.seqNo
    ensures var m' := m[SlotOf(item) := Tagged(ForTransaction(item, fetch(item.tx.signer).seqNo), New)];
            var items' := items[item.tx.hash := item];
            && FromItems(m', items', fetch) && AllNew(m')
            && LocalOwners(items') == LocalOwners(items) + if item.origin == Local then {item.tx.signer} else {}
  {
    var items' := items[item.tx.hash := item];
    forall h | h in items ensures items'[h] == items[h] {
    }
    forall p ensures p in LocalOwners(items') <==> p in LocalOwners(items) + if item.origin == Local then {item.tx.signer} else {} {
      if h :| h in items && items[h].origin == Local && items[h].tx.signer == p {
        assert h in items' && items'[h].origin == Local && items'[h].tx.signer == p;
      }
      if item.origin == Local && item.tx.signer == p {
        assert item.tx.hash in items' && items'[item.tx.hash].origin == Local;
      }
    }
  }

  lemma NothingLoaded(db: map<H256, Item>, fetch: Public -> Account)
    ensures Part(db, db.Keys, map[]) && FromItems(map[], map[], fetch) && AllNew(map[]) && IdsBelow(map[], 1) && LocalOwners(map[]) == {}
  {
  }

  lemma AllLoaded(db: map<H256, Item>, byHash: map<H256, Item>)
    requires Part(db, {}, byHash)
    ensures byHash == db
  {
  }

  ghost function RunEnds(m: Table, fetch: Public -> Account, now: Now): (ends: map<Public, nat>)
    ensures ends.Keys == Signers(m) && forall p :: p in ends ==> fetch(p).seqNo <= ends[p]
  {
    map p | p in Signers(m) :: RunEnd(m, p, fetch(p).seqNo, now)
  }

  /** A row that is all new needs no reordering. */
  lemma NewRowSettles(m: Table, p: Public, accountSeq: nat, seqs: seq<nat>, end: nat)
    requires Unplaced(m, p, accountSeq, Elements<nat>(seqs)) && forall s :: s in m && s.signer == p ==> m[s].tag == New
    ensures Settled(m, p, Elements<nat>(seqs), end) == SettledRow(m, p, accountSeq, end, false)
  {
    hide Unplaced;
    assert Reordered(m, p, accountSeq, end, false) == m;
    RowSettled(m, p, accountSeq, end, false, Elements<nat>(seqs));
  }

  lemma NewRowStays(m: Table, m': Table, p: Public)
    requires AllNew(m) && SameRow(m, m', p)
    ensures forall s :: s in m' && s.signer == p ==> m'[s].tag == New
  {
  }

  /** Sorting the loaded transactions into the queues leaves their orders as they are, and no signer is lost. */
  lemma RecoveredOrders(m: Table, items: map<H256, Item>, fetch: Public -> Account, ends: map<Public, nat>, locals: set<Public>)
    requires FromItems(m, items, fetch) && AllNew(m) && Signers(m) <= ends.Keys
    ensures FromItems(SettledTable(m, fetch, ends, {}), items, fetch)
    ensures StillLocal(locals, m, SettledTable(m, fetch, ends, {})) == locals
  {
    var m' := SettledTable(m, fetch, ends, {});
    forall s ensures s in m' <==> s in m {
    }
    forall p ensures p in Signers(m) <==> p in Signers(m') {
      if s :| s in m && s.signer == p {
        assert s in m';
      }
    }
  }

  /** Nothing was recorded before, so every recovered signer is placed exactly, counting from its account seq. */
  lemma RecoveredExact(m: Table, fetch: Public -> Account, now: Now, first: map<Public, nat>, next: map<Public, nat>)
    requires SeqsSettled(Signers(m), fetch, RunEnds(m, fetch, now), map[], map[], first, next, {})
    ensures var m' := SettledTable(m, fetch, RunEnds(m, fetch, now), {});
            AllPlaced(m', first, next) && Based(m', first, fetch) && forall p :: Exact(m', first, next, now, p)
  {
    hide Exact, AllPlaced, SettledTable, IsRun;
    var ends := RunEnds(m, fetch, now);
    SettledPlaced(m, fetch, ends, {}, map[], map[], first, next);
    forall p ensures Exact(SettledTable(m, fetch, ends, {}), first, next, now, p) {
      SettledExact(m, fetch, ends, {}, map[], map[], first, next, now, p);
    }
    RecoveredBase(m, fetch, ends, map[], map[], first, next);
  }

  lemma RecoveredBase(m: Table, fetch: Public -> Account, ends: map<Public, nat>, first0: map<Public, nat>, next0: map<Public, nat>,
                      first: map<Public, nat>, next: map<Public, nat>)
    requires Signers(m) <= ends.Keys && SeqsSettled(Signers(m), fetch, ends, first0, next0, first, next, {})
    ensures Based(SettledTable(m, fetch, ends, {}), first, fetch)
  {
    forall p | p in Signers(SettledTable(m, fetch, ends, {})) ensures Get(first, p, 0) == fetch(p).seqNo {
      var s :| s in SettledTable(m, fetch, ends, {}) && s.signer == p;
      assert s in m && p in Signers(m) && p !in {};
    }
  }
}
