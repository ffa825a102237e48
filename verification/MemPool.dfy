/** The transaction memory pool (core/src/miner/mem_pool.rs, core/src/miner/backup.rs). */
module MemPool {
  import opened Prelude
  import opened PoolTypes
  import opened Queues
  import opened PoolIndex
  import opened Placement
  import opened Admission
  import opened Eviction
  import opened Removal
  import opened PoolSteps
  import opened Recovery

  // ----- backup -----

  datatype BackupWrite = PutItem(hash: H256, item: Item) | RemoveItem(hash: H256)

  function ApplyBackup(db: map<H256, Item>, batch: Log<BackupWrite>): map<H256, Item> {
    match batch
    case Empty => db
    case Push(init, PutItem(h, item)) => ApplyBackup(db, init)[h := item]
    case Push(init, RemoveItem(h)) => ApplyBackup(db, init) - {h}
  }

  lemma NoBackup(db: map<H256, Item>)
    ensures ApplyBackup(db, Empty) == db
  {
  }

  // ----- tables -----

  lemma EmptyPlaced()
    ensures AllPlaced(map[], map[], map[])
  {
    forall p ensures RowPlaced(map[], map[], map[], p) {
    }
  }

  lemma ItemSlot(ix: Index, hash: H256)
    requires Synced(ix) && hash in ix.byHash
    ensures SlotOf(ix.byHash[hash]) in ix.bySigner && ix.bySigner[SlotOf(ix.byHash[hash])].order.hash == hash
  {
  }

  lemma IdsPart(items: map<H256, Item>, items': map<H256, Item>, limit: nat)
    requires SubMap(items', items) && IdsBelow(items, limit)
    ensures IdsBelow(items', limit)
  {
  }

  /** A transaction stays described when only the height and the origin of its order change. */
  lemma DescribesAnyway(o: Order, o': Order, item: Item)
    requires Describes(o, item) && o' == o.(height := o'.height, origin := o'.origin)
    ensures Describes(o', item)
  {
  }

  // ----- admission -----

  /** The counted fees are those that occur. */
  lemma FeesCounted(counter: map<nat, nat>, q: set<Order>)
    requires CountsFees(counter, q)
    ensures counter.Keys == Fees(q) && (q == {} <==> counter == map[])
  {
    forall fee | fee in Fees(q) ensures fee in counter {
      var o :| o in q && o.fee == fee;
      assert o in WithFee(q, fee);
    }
    forall fee | fee in counter ensures fee in Fees(q) {
      var o :| o in WithFee(q, fee);
    }
    if q != {} {
      var o :| o in q;
      assert o.fee in Fees(q);
    } else {
      assert counter.Keys == {};
    }
  }

  lemma LeastIsUnique(keys: set<nat>, a: nat, b: nat)
    requires IsLeast(keys, a) && IsLeast(keys, b)
    ensures a == b
  {
  }

  /** Which accounts are local does not decide on a transaction whose origin is given. */
  lemma LocalsAside(rules: Rules, t: Tables, locals: set<Public>, tx: Tx, origin: TxOrigin, account: Account)
    ensures FirstError(rules, t.(locals := locals), tx, origin, account) == FirstError(rules, t, tx, origin, account)
  {
  }

  /** Everything that was accepted is stored under a fresh id. */
  lemma EnteredIds(t: Tables, item: Item, accountSeq: nat)
    requires accountSeq <= item.tx.seqNo && IdsBelow(t.byHash, t.nextId) && item.id == t.nextId
    ensures IdsBelow(Entered(t, item, accountSeq).byHash, t.nextId + 1)
  {
  }

  lemma NothingGathered(rules: Rules, t: Tables, inputs: seq<Input>, now: Now, fetch: Public -> Account)
    ensures Replay(rules, t, inputs[..0], now, fetch) == t && LocalSigners(inputs[..0]) == {}
  {
  }

  // ----- settling -----

  lemma ListedRow(m: Table, p: Public, accountSeq: nat, seqs: seq<nat>)
    requires Unplaced(m, p, accountSeq, Elements<nat>(seqs))
    ensures forall n :: n in seqs ==> IsNew(m, Slot(p, n)) && accountSeq <= n
    ensures forall n :: IsNew(m, Slot(p, n)) ==> n in seqs
  {
    forall n | n in seqs ensures IsNew(m, Slot(p, n)) && accountSeq <= n {
      assert n in Elements<nat>(seqs);
      assert Slot(p, n).signer == p;
    }
    forall n | IsNew(m, Slot(p, n)) ensures n in seqs {
      assert Slot(p, n).signer == p;
    }
  }

  /** The first new transaction that must wait, or else the end of the run from the recorded seq on, is where the
      run stops. */
  lemma EndFound(m: Table, p: Public, accountSeq: nat, seqs: seq<nat>, recorded: nat, waiting: Option<nat>, end: nat, now: Now)
    requires accountSeq <= recorded && (recorded == accountSeq || forall n :: IsNew(m, Slot(p, n)) ==> n in seqs)
    requires forall n :: n in seqs ==> IsNew(m, Slot(p, n)) && accountSeq <= n
    requires forall n :: n in seqs && n < recorded && (waiting.Some? ==> n < waiting.value) ==> ReadyAt(m, p, n, now)
    requires if waiting.Some? then end == waiting.value && end in seqs && end < recorded && !ReadyAt(m, p, end, now)
             else IsRun(m, p, recorded, end, now)
    ensures end == StopFrom(m, p, accountSeq, recorded, now)
  {
    hide ReadyAt, IsNew;
    StopIsUnique(m, p, accountSeq, recorded, now, end);
  }

  lemma OpenRow(m: Table, first: map<Public, nat>, next: map<Public, nat>, fetch: Public -> Account,
                toInsert: map<Public, seq<nat>>, p: Public)
    requires AllOpen(m, first, next, fetch, toInsert)
    ensures RowOpen(m, first, next, fetch(p).seqNo, GetSeqs(toInsert, p), p)
  {
  }

  lemma SameMap<K, V>(m: map<K, V>)
    ensures SubMap(m, m)
  {
  }

  /** A placed row holds nothing new, so that re-sorting settles it. */
  lemma PlacedSettles(m: Table, first: map<Public, nat>, next: map<Public, nat>, p: Public, accountSeq: nat, end: nat)
    requires RowPlaced(m, first, next, p)
    ensures Reordered(m, p, accountSeq, end, false) == SettledRow(m, p, accountSeq, end, false)
  {
    RowSettled(m, p, accountSeq, end, false, {});
    SettleNothing(Reordered(m, p, accountSeq, end, false), p, end);
  }

  // ----- limits -----

  /** The orders that stay are those that do not have to go. */
  lemma OrdersAfter(m: Table, limit: nat, memLimit: nat, tag: QueueTag)
    requires tag != New && Separated(OrdersIn(m, tag))
    ensures var all := OrdersIn(m, tag);
            && OrdersIn(EvictedTable(m, limit, memLimit), tag) == all - ToDrop(all, limit, memLimit)
            && IsEviction(all, Externals(OrdersIn(EvictedTable(m, limit, memLimit), tag)), ToDrop(all, limit, memLimit), limit, memLimit)
  {
    hide ToDrop, IsEviction;
    var all, after := OrdersIn(m, tag), OrdersIn(EvictedTable(m, limit, memLimit), tag);
    forall o ensures o in after <==> o in all && o !in ToDrop(all, limit, memLimit) {
      if o in all && o !in ToDrop(all, limit, memLimit) {
        var s :| s in m && m[s] == Tagged(o, tag);
        assert s in EvictedTable(m, limit, memLimit);
      }
    }
    DropIsEviction(all, limit, memLimit);
    assert Externals(after) == Externals(all) - ToDrop(all, limit, memLimit);
  }

  lemma DroppedQueued(q: set<Order>, limit: nat, memLimit: nat)
    ensures ToDrop(q, limit, memLimit) <= q
  {
  }

  // ----- removing -----

  /** A hash that is looked up in the tables. */
  lemma PurgeOne(items: map<H256, Item>, m: Table, hashes: set<H256>, hash: H256, fetch: Public -> Account, removed: map<Public, nat>)
    requires Linked(items, m) && Notes(m, hashes, fetch, removed)
    ensures hash !in items - hashes ==>
              && items - (hashes + {hash}) == items - hashes && Purged(m, hashes + {hash}) == Purged(m, hashes)
              && Notes(m, hashes + {hash}, fetch, removed)
    ensures hash in items - hashes ==>
              var s := SlotOf(items[hash]);
              var removed' := if fetch(s.signer).seqNo <= s.seqNo && (s.signer in removed ==> s.seqNo < removed[s.signer])
                              then removed[s.signer := s.seqNo] else removed;
              && items - (hashes + {hash}) == (items - hashes) - {hash}
              && Purged(m, hashes + {hash}) == Purged(m, hashes) - {s} && Notes(m, hashes + {hash}, fetch, removed')
  {
    hide Describes, Purged, Notes;
    if hash in items - hashes {
      var s := SlotOf(items[hash]);
      var removed' := if fetch(s.signer).seqNo <= s.seqNo && (s.signer in removed ==> s.seqNo < removed[s.signer])
                      then removed[s.signer := s.seqNo] else removed;
      LoseOne(m, hashes, s, fetch, removed, removed');
    } else if hash in hashes {
      assert hashes + {hash} == hashes;
    } else {
      NotThere(m, hashes, hash, fetch, removed);
    }
  }

  lemma PurgedPart(m: Table, hashes: set<H256>)
    ensures SubMap(Purged(m, hashes), m)
  {
  }

  lemma TagsPart(m: Table, m': Table)
    requires SubMap(m', m) && forall s :: s in m ==> m[s].tag != New
    ensures forall s :: s in m' ==> m'[s].tag != New
  {
  }

  lemma WithoutPart(items: map<H256, Item>, hashes: set<H256>)
    ensures SubMap(items - hashes, items)
  {
  }

  lemma LinkedIx(ix: Index)
    requires Synced(ix)
    ensures Linked(ix.byHash, ix.bySigner)
  {
  }

  class MemPool {
    var minimalFee: nat
    const feeBumpShift: nat
    const maxBlockPeriod: nat
    var current: CurrentQueue
    var future: FutureQueue
    var bySigner: Table
    var countLimit: nat
    const memoryLimit: nat
    var byHash: map<H256, Item>
    var firstSeqs: map<Public, nat>
    var nextSeqs: map<Public, nat>
    var isLocalAccount: set<Public>
    var lastBlockNumber: nat
    var lastTimestamp: nat
    var nextTransactionId: nat
    var db: map<H256, Item>

    constructor (limit: nat, memoryLimit: nat, feeBumpShift: nat, db: map<H256, Item>)
      ensures Contents() == Tables(map[], map[], {}, 0) && firstSeqs == map[] && nextSeqs == map[] && this.db == db
      ensures Policy() == Rules(0, limit, feeBumpShift) && this.memoryLimit == memoryLimit && maxBlockPeriod == 128
      ensures Last() == Now(0, 0)
      ensures Synced(Ix()) && (db == map[] ==> Valid())
    {
      minimalFee, this.feeBumpShift, maxBlockPeriod := 0, feeBumpShift, 128;
      future := FutureQueue({}, 0, 0);
      current := CurrentQueue(FutureQueue({}, 0, 0), map[]);
      bySigner, byHash := map[], map[];
      countLimit, this.memoryLimit := limit, memoryLimit;
      firstSeqs, nextSeqs, isLocalAccount := map[], map[], {};
      lastBlockNumber, lastTimestamp, nextTransactionId := 0, 0, 0;
      this.db := db;
      new;
      EmptyPlaced();
    }

    // ----- the state -----

    ghost function Ix(): Index
      reads this
    {
      Index(byHash, bySigner, current, future)
    }

    ghost function Contents(): Tables
      reads this
    {
      Tables(byHash, bySigner, isLocalAccount, nextTransactionId)
    }

    ghost function Policy(): Rules
      reads this
    {
      Rules(minimalFee, countLimit, feeBumpShift)
    }

    /** The time of the last call. */
    ghost function Last(): Now
      reads this
    {
      Now(lastBlockNumber, lastTimestamp)
    }

    ghost function State(): PoolState
      reads this
    {
      PoolState(Policy(), memoryLimit, Contents(), firstSeqs, nextSeqs, Last())
    }

    /** What holds between any two calls. */
    ghost predicate Valid()
      reads this
    {
      && Synced(Ix()) && db == byHash && IdsBelow(byHash, nextTransactionId)
      && AllPlaced(bySigner, firstSeqs, nextSeqs)
    }

    // ----- elementary updates -----

    method Requeue(s: Slot, o: Order, tag: QueueTag)
      requires Synced(Ix()) && s in bySigner && tag != New
      requires bySigner[s].order.hash in byHash && Describes(o, byHash[bySigner[s].order.hash])
      modifies this`current, this`future, this`bySigner
      ensures Synced(Ix()) && bySigner == old(bySigner)[s := Tagged(o, tag)]
    {
      hide Synced, Describes, CurrentQueue.Insert, CurrentQueue.Remove, FutureQueue.Insert, FutureQueue.Remove;
      RequeuedSynced(Ix(), s, o, tag);
      var t := bySigner[s];
      match t.tag {
        case Current => current := current.Remove(t.order);
        case Future => future := future.Remove(t.order);
        case New =>
      }
      if tag == Current {
        current := current.Insert(o);
      } else {
        future := future.Insert(o);
      }
      bySigner := bySigner[s := Tagged(o, tag)];
    }

    /** Takes a transaction out of the tables, the queues and the backup. */
    method Discard(s: Slot, batch: Log<BackupWrite>) returns (batch': Log<BackupWrite>)
      requires Synced(Ix()) && s in bySigner
      requires ApplyBackup(db, batch) == byHash
      modifies this`current, this`future, this`bySigner, this`byHash
      ensures Synced(Ix()) && bySigner == old(bySigner) - {s}
      ensures byHash == old(byHash) - {old(bySigner)[s].order.hash}
      ensures ApplyBackup(db, batch') == byHash
    {
      hide Synced, CurrentQueue.Remove, FutureQueue.Remove;
      DroppedSynced(Ix(), s);
      var t := bySigner[s];
      match t.tag {
        case Current => current := current.Remove(t.order);
        case Future => future := future.Remove(t.order);
        case New =>
      }
      byHash := byHash - {t.order.hash};
      batch' := Push(batch, RemoveItem(t.order.hash));
      bySigner := bySigner - {s};
    }

    /** A new transaction enters the tables; the one it replaces leaves them, its queue and the backup. */
    method InsertItem(item: Item, accountSeq: nat, batch: Log<BackupWrite>) returns (batch': Log<BackupWrite>)
      requires Synced(Ix()) && ApplyBackup(db, batch) == byHash && accountSeq <= item.tx.seqNo
      requires item.tx.hash !in byHash && !IsNew(bySigner, SlotOf(item))
      requires forall h :: h in byHash ==> byHash[h].id != item.id
      modifies this`current, this`future, this`bySigner, this`byHash
      ensures Contents() == Entered(old(Contents()), item, accountSeq).(nextId := nextTransactionId)
      ensures ApplyBackup(db, batch') == byHash && Synced(Ix())
    {
      hide Synced, Describes, CurrentQueue.Remove, FutureQueue.Remove, ForTransaction;
      var s := SlotOf(item);
      var o := ForTransaction(item, accountSeq);
      DescribesNew(item, accountSeq);
      ghost var ix := Ix();
      if s in bySigner {
        InQueue(ix, s);
        DroppedSynced(ix, s);
        AddedSynced(Dropped(ix, s), item, o);
      } else {
        AddedSynced(ix, item, o);
      }
      batch' := Push(batch, PutItem(item.tx.hash, item));
      byHash := byHash[item.tx.hash := item];
      if s in bySigner {
        var t := bySigner[s];
        bySigner := bySigner[s := Tagged(o, New)];
        byHash := byHash - {t.order.hash};
        batch' := Push(batch', RemoveItem(t.order.hash));
        match t.tag {
          case Current => current := current.Remove(t.order);
          case Future => future := future.Remove(t.order);
        }
        DropThenPut(ix.bySigner, s, Tagged(o, New));
        PutThenDrop(ix.byHash, item.tx.hash, item, t.order.hash);
      } else {
        bySigner := bySigner[s := Tagged(o, New)];
      }
    }

    // ----- admission -----

    /** One more than the lowest fee of a full current queue. */
    method EffectiveMinimumFee() returns (fee: nat)
      requires Synced(Ix())
      ensures fee == if |current.base.queue| >= countLimit then MinimumFee(current.base.queue) else 0
    {
      hide Synced, Linked, CountsFees, Separated, Externals, ExternalMem, Fees;
      if |current.base.queue| >= countLimit {
        SyncedParts(Ix());
        FeesCounted(current.feeCounter, current.base.queue);
        if current.feeCounter == map[] {
          fee := 0;
        } else {
          ghost var lowest := LeastExists(current.feeCounter.Keys);
          var low :| low in current.feeCounter && forall k :: k in current.feeCounter ==> low <= k;
          LeastIsUnique(current.feeCounter.Keys, low, Least(Fees(current.base.queue)));
          fee := low + 1;
        }
      } else {
        fee := 0;
      }
    }

    /** Finds the first thing that is wrong with a transaction. */
    method VerifyTransaction(tx: Tx, origin: TxOrigin, account: Account) returns (error: Option<Error>)
      requires Synced(Ix())
      ensures error == FirstError(Policy(), Contents(), tx, origin, account)
      ensures error.None? <==> Accepts(Policy(), Contents(), tx, origin, account)
    {
      hide Synced, MinimumFee, OrdersIn, Accepts;
      QueueIsOrders(Ix(), Current);
      if origin != Local && tx.fee < minimalFee {
        return Some(InsufficientFee(minimalFee, tx.fee));
      }
      var lowest := EffectiveMinimumFee();
      if origin != Local && tx.fee < lowest {
        return Some(InsufficientFee(lowest, tx.fee));
      }
      if account.balance < tx.fee {
        return Some(InsufficientBalance(tx.fee, account.balance));
      }
      if tx.hash in byHash {
        return Some(AlreadyImported);
      }
      if tx.seqNo < account.seqNo {
        return Some(Old);
      }
      var slot := Slot(tx.signer, tx.seqNo);
      if origin != Local && slot in bySigner {
        var oldFee := bySigner[slot].order.fee;
        if tx.fee < oldFee + ShiftRight(oldFee, feeBumpShift) {
          return Some(TooCheapToReplace);
        }
      }
      return None;
    }

    /** A local transaction makes its signer a local account. */
    method Classify(input: Input, newLocals: set<Public>) returns (origin: TxOrigin, newLocals': set<Public>)
      modifies this`isLocalAccount
      ensures origin == OriginFor(input, old(isLocalAccount))
      ensures isLocalAccount == old(isLocalAccount) + LocalSigner(input)
      ensures newLocals' == newLocals + (LocalSigner(input) - old(isLocalAccount))
    {
      origin, newLocals' := input.origin, newLocals;
      if input.origin.Local? && input.tx.signer !in isLocalAccount {
        isLocalAccount := isLocalAccount + {input.tx.signer};
        newLocals' := newLocals' + {input.tx.signer};
        origin := Local;
      } else if input.origin.External? && input.tx.signer in isLocalAccount {
        origin := Local;
      }
    }

    /** Gives an accepted transaction its id and enters it into the tables. */
    method Enter(input: Input, origin: TxOrigin, now: Now, fetch: Public -> Account, toInsert: map<Public, seq<nat>>,
                 batch: Log<BackupWrite>)
        returns (toInsert': map<Public, seq<nat>>, batch': Log<BackupWrite>)
      requires Synced(Ix()) && ApplyBackup(db, batch) == byHash && IdsBelow(byHash, nextTransactionId)
      requires AllOpen(bySigner, firstSeqs, nextSeqs, fetch, toInsert)
      requires input.tx.hash !in byHash && fetch(input.tx.signer).seqNo <= input.tx.seqNo && !IsNew(bySigner, SlotFor(input))
      modifies this`current, this`future, this`bySigner, this`byHash, this`nextTransactionId
      ensures Contents() == Entered(old(Contents()), Stored(input, origin, now, old(nextTransactionId)), fetch(input.tx.signer).seqNo)
      ensures ApplyBackup(db, batch') == byHash && IdsBelow(byHash, nextTransactionId)
      ensures AllOpen(bySigner, firstSeqs, nextSeqs, fetch, toInsert') && Synced(Ix())
    {
      hide Synced, ApplyBackup, AllOpen;
      var tx := input.tx;
      ghost var before := Contents();
      var id := nextTransactionId;
      nextTransactionId := nextTransactionId + 1;
      var item := Stored(input, origin, now, id);
      InsertedOpen(bySigner, firstSeqs, nextSeqs, fetch, toInsert, SlotOf(item), ForTransaction(item, fetch(tx.signer).seqNo));
      toInsert' := toInsert[tx.signer := GetSeqs(toInsert, tx.signer) + [tx.seqNo]];
      EnteredIds(before, item, fetch(tx.signer).seqNo);
      batch' := InsertItem(item, fetch(tx.signer).seqNo, batch);
    }

    /** Takes one input into the tables if it is accepted. An accepted input whose slot is new already ends in
        an `unreachable!`; the state is then as it was left. */
    method ImportOne(input: Input, now: Now, fetch: Public -> Account, toInsert: map<Public, seq<nat>>,
                     newLocals: set<Public>, batch: Log<BackupWrite>)
        returns (panicked: bool, error: Option<Error>, toInsert': map<Public, seq<nat>>, newLocals': set<Public>,
                 batch': Log<BackupWrite>)
      requires Synced(Ix()) && ApplyBackup(db, batch) == byHash && IdsBelow(byHash, nextTransactionId)
      requires AllOpen(bySigner, firstSeqs, nextSeqs, fetch, toInsert)
      modifies this`current, this`future, this`bySigner, this`byHash, this`isLocalAccount, this`nextTransactionId
      ensures panicked <==> Clashes(Policy(), old(Contents()), input, fetch)
      ensures error == Judge(Policy(), old(Contents()), input, fetch)
      ensures !panicked ==> Contents() == Imported(Policy(), old(Contents()), input, now, fetch)
      ensures newLocals' == newLocals + (LocalSigner(input) - old(isLocalAccount))
      ensures ApplyBackup(db, batch') == byHash && IdsBelow(byHash, nextTransactionId)
      ensures AllOpen(bySigner, firstSeqs, nextSeqs, fetch, toInsert') && Synced(Ix())
    {
      hide Synced, ApplyBackup, AllOpen, FirstError, Accepts, IdsBelow, Entered;
      panicked, toInsert', batch' := false, toInsert, batch;
      ghost var before := Contents();
      var origin;
      origin, newLocals' := Classify(input, newLocals);
      LocalsAside(Policy(), before, isLocalAccount, input.tx, origin, fetch(input.tx.signer));
      error := VerifyTransaction(input.tx, origin, fetch(input.tx.signer));
      if error.None? {
        AcceptedNotOld(Policy(), before, input, fetch);
        panicked := IsNew(bySigner, SlotFor(input));
        if !panicked {
          toInsert', batch' := Enter(input, origin, now, fetch, toInsert, batch);
        }
      }
    }

    /** First pass: every input is refused or enters the tables, until one clashes with an earlier one. */
    method Gather(inputs: seq<Input>, now: Now, fetch: Public -> Account)
        returns (panicked: bool, errors: seq<Option<Error>>, toInsert: map<Public, seq<nat>>, newLocals: set<Public>,
                 batch: Log<BackupWrite>)
      requires Synced(Ix()) && db == byHash && IdsBelow(byHash, nextTransactionId)
      requires AllPlaced(bySigner, firstSeqs, nextSeqs)
      modifies this`current, this`future, this`bySigner, this`byHash, this`isLocalAccount, this`nextTransactionId
      ensures panicked <==> Panics(Policy(), old(Contents()), inputs, now, fetch)
      ensures !panicked ==> Contents() == Replay(Policy(), old(Contents()), inputs, now, fetch)
      ensures !panicked ==> |errors| == |inputs| && forall i :: 0 <= i < |inputs| ==>
                errors[i] == AnswerTo(Policy(), old(Contents()), inputs, i, now, fetch)
      ensures !panicked ==> newLocals == LocalSigners(inputs) - old(isLocalAccount)
      ensures ApplyBackup(db, batch) == byHash && IdsBelow(byHash, nextTransactionId)
      ensures AllOpen(bySigner, firstSeqs, nextSeqs, fetch, toInsert) && Synced(Ix())
    {
      hide Synced, ApplyBackup, AllOpen, AllPlaced, IdsBelow, LocalSigners, Judge, Imported, Clashes, LocalSigner, OthersSame, Replay;
      ghost var t, rules := Contents(), Policy();
      panicked, errors, toInsert, newLocals, batch := false, [], map[], {}, Empty;
      NothingGathered(rules, t, inputs, now, fetch);
      PlacedIsOpen(bySigner, firstSeqs, nextSeqs, fetch);
      NoBackup(db);
      for i := 0 to |inputs|
        invariant Contents() == Replay(rules, t, inputs[..i], now, fetch)
        invariant forall j :: 0 <= j < i ==> !ClashesAt(rules, t, inputs, j, now, fetch)
        invariant |errors| == i && forall j :: 0 <= j < i ==> errors[j] == AnswerTo(rules, t, inputs, j, now, fetch)
        invariant newLocals == LocalSigners(inputs[..i]) - t.locals
        invariant ApplyBackup(db, batch) == byHash && IdsBelow(byHash, nextTransactionId)
        invariant AllOpen(bySigner, firstSeqs, nextSeqs, fetch, toInsert) && Synced(Ix())
      {
        ReplayOthers(rules, t, inputs, i, now, fetch);
        ReplayPush(rules, t, inputs, i, now, fetch);
        var error;
        panicked, error, toInsert, newLocals, batch := ImportOne(inputs[i], now, fetch, toInsert, newLocals, batch);
        if panicked {
          assert ClashesAt(rules, t, inputs, i, now, fetch);
          return;
        }
        assert inputs[..i + 1] == inputs[..i] + [inputs[i]];
        LocalSignersPush(inputs[..i], inputs[i]);
        errors := errors + [error];
      }
      assert inputs[..|inputs|] == inputs;
    }

    // ----- reading a signer's row -----

    /** Climbs to the end of the run of ready transactions. */
    method CheckTransactions(p: Public, start: nat, now: Now) returns (end: nat)
      ensures IsRun(bySigner, p, start, end, now)
    {
      end := start;
      while Slot(p, end) in bySigner
        invariant start <= end && forall n :: start <= n < end ==> ReadyAt(bySigner, p, n, now)
        decreases |Above(bySigner, p, end)|
      {
        if Waits(bySigner[Slot(p, end)].order.timelock, now) {
          break;
        }
        AboveShrinks(bySigner, p, end);
        end := end + 1;
      }
    }

    /** The smallest of the given seqs below `next` that must wait. */
    method CheckNewTransactions(p: Public, seqs: seq<nat>, next: nat, now: Now) returns (r: Option<nat>)
      requires forall n :: n in seqs ==> Slot(p, n) in bySigner
      ensures r.Some? ==> r.value in seqs && r.value < next && !ReadyAt(bySigner, p, r.value, now)
      ensures forall n :: n in seqs && n < next && (r.Some? ==> n < r.value) ==> ReadyAt(bySigner, p, n, now)
    {
      r := None;
      for i := 0 to |seqs|
        invariant r.Some? ==> r.value in seqs && r.value < next && !ReadyAt(bySigner, p, r.value, now)
        invariant forall j :: 0 <= j < i && seqs[j] < next && (r.Some? ==> seqs[j] < r.value) ==> ReadyAt(bySigner, p, seqs[j], now)
      {
        var n := seqs[i];
        if n < next && Waits(bySigner[Slot(p, n)].order.timelock, now) && (r.None? || r.value > n) {
          r := Some(n);
        }
      }
    }

    /** The end of the signer's run after transactions with the given seqs have been added: looked for
        from scratch, or from where the old run ended. */
    method NextAfterAdd(p: Public, accountSeq: nat, seqs: seq<nat>, now: Now) returns (newNext: nat)
      requires RowOpen(bySigner, firstSeqs, nextSeqs, accountSeq, seqs, p)
      ensures newNext == NewEnd(bySigner, firstSeqs, nextSeqs, accountSeq, Last(), now, p)
    {
      hide Placed, NoDuplicates, StopsAt, IsRun, ReadyAt;
      var firstSeq := Get(firstSeqs, p, 0);
      var next := Get(nextSeqs, p, accountSeq);
      ListedRow(bySigner, p, accountSeq, seqs);
      if accountSeq < firstSeq || now.block < lastBlockNumber || now.timestamp < lastTimestamp || next < accountSeq {
        newNext := CheckTransactions(p, accountSeq, now);
        EndFound(bySigner, p, accountSeq, [], accountSeq, None, newNext, now);
      } else {
        var waiting := CheckNewTransactions(p, seqs, next, now);
        if waiting.Some? {
          newNext := waiting.value;
        } else {
          newNext := CheckTransactions(p, next, now);
        }
        EndFound(bySigner, p, accountSeq, seqs, next, waiting, newNext, now);
      }
    }

    // ----- updating a signer's row -----

    /** Moves the transactions with seqs in [lo, hi) to the queue `to`. */
    method MoveQueue(p: Public, lo: nat, hi: nat, to: QueueTag)
      requires Synced(Ix()) && to != New
      modifies this`current, this`future, this`bySigner
      ensures Synced(Ix()) && bySigner == Moved(old(bySigner), p, lo, hi, to)
    {
      hide Synced, Describes, Moved;
      var n := lo;
      MoveNothing(bySigner, p, lo, lo, to);
      while n < hi
        invariant lo <= n && (lo <= hi ==> n <= hi) && (hi < lo ==> n == lo)
        invariant Synced(Ix()) && bySigner == Moved(old(bySigner), p, lo, n, to)
      {
        var s := Slot(p, n);
        MoveOne(old(bySigner), p, lo, n, to);
        if s in bySigner {
          InQueue(Ix(), s);
          var t := bySigner[s];
          if (t.tag == Current && to == Future) || (t.tag == Future && to == Current) {
            Requeue(s, t.order, to);
          } else {
            assert t.tag == to ==> bySigner[s := t] == bySigner;
          }
        }
        n := n + 1;
      }
      if hi < lo {
        MoveNothing(old(bySigner), p, lo, hi, to);
      }
    }

    /** Puts the new transactions with the given seqs into the queues. */
    method AddNewOrdersToQueue(p: Public, seqs: seq<nat>, end: nat)
      requires Synced(Ix()) && NoDuplicates(seqs) && forall n :: n in seqs ==> IsNew(bySigner, Slot(p, n))
      modifies this`current, this`future, this`bySigner
      ensures Synced(Ix()) && bySigner == Settled(old(bySigner), p, Elements<nat>(seqs), end)
    {
      hide Synced, Describes, Settled;
      SettleNothing(bySigner, p, end);
      assert Elements<nat>(seqs[..0]) == {};
      for i := 0 to |seqs|
        invariant Synced(Ix()) && bySigner == Settled(old(bySigner), p, Elements<nat>(seqs[..i]), end)
      {
        var n := seqs[i];
        var s := Slot(p, n);
        assert n in seqs && n !in seqs[..i];
        SettleOne(old(bySigner), p, Elements<nat>(seqs[..i]), end, n);
        InQueue(Ix(), s);
        var tag := if n < end then Current else Future;
        Requeue(s, bySigner[s].order, tag);
        assert bySigner == Settled(old(bySigner), p, Elements<nat>(seqs[..i]) + {n}, end);
        assert seqs[..i + 1] == seqs[..i] + [n];
        ElementsPush<nat>(seqs[..i], n);
      }
      assert seqs[..|seqs|] == seqs;
    }

    /** Drops the signer's old transactions, recounts its heights and re-sorts it. */
    method UpdateOrders(p: Public, base: nat, end: nat, toLocal: bool, batch: Log<BackupWrite>) returns (batch': Log<BackupWrite>)
      requires Synced(Ix()) && ApplyBackup(db, batch) == byHash
      modifies this`current, this`future, this`bySigner, this`byHash
      ensures Synced(Ix()) && bySigner == Reordered(old(bySigner), p, base, end, toLocal)
      ensures SubMap(byHash, old(byHash)) && ApplyBackup(db, batch') == byHash
    {
      hide Synced, Describes, ReorderedBut, ApplyBackup;
      batch' := batch;
      var rest := set s | s in bySigner && s.signer == p;
      ReorderAll(bySigner, p, base, end, toLocal, rest);
      while rest != {}
        invariant forall s :: s in rest ==> s in old(bySigner) && s.signer == p
        invariant Synced(Ix()) && bySigner == ReorderedBut(old(bySigner), p, base, end, toLocal, rest)
        invariant SubMap(byHash, old(byHash)) && ApplyBackup(db, batch') == byHash
        decreases |rest|
      {
        var s :| s in rest;
        ReorderOne(old(bySigner), p, base, end, toLocal, rest, s);
        InQueue(Ix(), s);
        var t := bySigner[s];
        if t.tag != New {
          if s.seqNo < base {
            batch' := Discard(s, batch');
          } else {
            var o := NewOrder(t.order, s.seqNo, base, toLocal);
            DescribesAnyway(t.order, o, byHash[t.order.hash]);
            Requeue(s, o, if s.seqNo < end then Current else Future);
          }
        }
        rest := rest - {s};
      }
    }

    /** Brings the signer's queues in line with its account seq and the end of its run. */
    method Reconcile(p: Public, accountSeq: nat, newNext: nat, toLocal: bool, batch: Log<BackupWrite>)
        returns (batch': Log<BackupWrite>)
      requires Synced(Ix()) && ApplyBackup(db, batch) == byHash
      requires Placed(bySigner, p, Get(firstSeqs, p, 0), Get(nextSeqs, p, Get(firstSeqs, p, 0)))
      modifies this`current, this`future, this`bySigner, this`byHash, this`firstSeqs, this`nextSeqs
      ensures bySigner == Reordered(old(bySigner), p, accountSeq, newNext, toLocal)
      ensures Get(firstSeqs, p, 0) == accountSeq && NextIs(nextSeqs, p, accountSeq, newNext)
      ensures firstSeqs - {p} == old(firstSeqs) - {p} && nextSeqs - {p} == old(nextSeqs) - {p}
      ensures Synced(Ix()) && ApplyBackup(db, batch') == byHash && SubMap(byHash, old(byHash))
    {
      hide Synced, Placed, Moved, ReorderedBut, ApplyBackup;
      batch' := batch;
      var firstSeq := Get(firstSeqs, p, 0);
      var next := Get(nextSeqs, p, accountSeq);
      if accountSeq != firstSeq || toLocal {
        batch' := UpdateOrders(p, accountSeq, newNext, toLocal, batch');
        firstSeqs := firstSeqs[p := accountSeq];
      } else {
        MovedIsReordered(bySigner, p, firstSeq, next, newNext);
        if newNext < next {
          MoveQueue(p, newNext, next, Future);
        } else if newNext > next {
          MoveQueue(p, next, newNext, Current);
        } else {
          MoveNothing(bySigner, p, next, newNext, Current);
        }
      }
      if newNext <= accountSeq {
        nextSeqs := nextSeqs - {p};
      } else {
        nextSeqs := nextSeqs[p := newNext];
      }
    }

    /** An account without transactions is not local any more. */
    method ClearIfEmpty(p: Public)
      modifies this`isLocalAccount
      ensures isLocalAccount == if p in Signers(bySigner) then old(isLocalAccount) else old(isLocalAccount) - {p}
    {
      if p !in Signers(bySigner) {
        isLocalAccount := isLocalAccount - {p};
      }
    }

    // ----- settling after an addition -----

    /** Brings one signer's row up to date after an addition. */
    method SettleSigner(p: Public, accountSeq: nat, seqs: seq<nat>, toLocal: bool, now: Now, batch: Log<BackupWrite>)
        returns (batch': Log<BackupWrite>)
      requires Synced(Ix()) && ApplyBackup(db, batch) == byHash
      requires RowOpen(bySigner, firstSeqs, nextSeqs, accountSeq, seqs, p)
      modifies this`current, this`future, this`bySigner, this`byHash, this`firstSeqs, this`nextSeqs
      ensures var end := NewEnd(old(bySigner), old(firstSeqs), old(nextSeqs), accountSeq, Last(), now, p);
              && bySigner == SettledRow(old(bySigner), p, accountSeq, end, toLocal)
              && Get(firstSeqs, p, 0) == accountSeq && NextIs(nextSeqs, p, accountSeq, end)
      ensures firstSeqs - {p} == old(firstSeqs) - {p} && nextSeqs - {p} == old(nextSeqs) - {p}
      ensures Synced(Ix()) && ApplyBackup(db, batch') == byHash && SubMap(byHash, old(byHash))
    {
      hide Synced, Placed, Unplaced, NoDuplicates, Settled, ApplyBackup, NewEnd, Reordered, SettledRow, SubMap, NextIs;
      var newNext := NextAfterAdd(p, accountSeq, seqs, now);
      RowSettled(bySigner, p, accountSeq, newNext, toLocal, Elements<nat>(seqs));
      batch' := Reconcile(p, accountSeq, newNext, toLocal, batch);
      ListedRow(bySigner, p, accountSeq, seqs);
      AddNewOrdersToQueue(p, seqs, newNext);
    }

    /** Second pass: every signer's row is brought up to date, in any order. */
    method SettleAll(fetch: Public -> Account, toInsert: map<Public, seq<nat>>, newLocals: set<Public>, now: Now,
                     batch: Log<BackupWrite>)
        returns (batch': Log<BackupWrite>)
      requires Synced(Ix()) && ApplyBackup(db, batch) == byHash
      requires AllOpen(bySigner, firstSeqs, nextSeqs, fetch, toInsert)
      modifies this`current, this`future, this`bySigner, this`byHash, this`firstSeqs, this`nextSeqs, this`isLocalAccount
      ensures var ends := NewEnds(old(bySigner), old(firstSeqs), old(nextSeqs), fetch, Last(), now);
              && bySigner == SettledTable(old(bySigner), fetch, ends, newLocals)
              && SeqsSettled(Signers(old(bySigner)), fetch, ends, old(firstSeqs), old(nextSeqs), firstSeqs, nextSeqs, {})
      ensures isLocalAccount == StillLocal(old(isLocalAccount), old(bySigner), bySigner)
      ensures Synced(Ix()) && ApplyBackup(db, batch') == byHash && SubMap(byHash, old(byHash))
    {
      hide Synced, ApplyBackup, AllOpen, Settling, Drains, SubMap, NewEnd, SettledRow, SettledTable, SeqsSettled, NextIs, RowOpen,
           SameRow, SameSeq, Signers, StillLocal;
      batch' := batch;
      ghost var plan := Plan(bySigner, firstSeqs, nextSeqs, fetch, NewEnds(bySigner, firstSeqs, nextSeqs, fetch, Last(), now), newLocals);
      var rest := Signers(bySigner);
      SettlingStarts(plan);
      DrainsStart(bySigner, isLocalAccount, rest);
      SameMap(byHash);
      while rest != {}
        invariant rest <= Signers(plan.m) && Settling(plan, bySigner, firstSeqs, nextSeqs, rest)
        invariant Drains(plan.m, bySigner, old(isLocalAccount), isLocalAccount, rest)
        invariant Synced(Ix()) && ApplyBackup(db, batch') == byHash && SubMap(byHash, old(byHash))
        decreases |rest|
      {
        var p :| p in rest;
        ghost var m, first, next, items := bySigner, firstSeqs, nextSeqs, byHash;
        SettlingRow(plan, m, first, next, rest, p);
        OpenRow(plan.m, plan.first, plan.next, fetch, toInsert, p);
        SameRowOpen(plan.m, plan.first, plan.next, m, first, next, fetch(p).seqNo, GetSeqs(toInsert, p), p);
        SameRowEnds(plan.m, plan.first, plan.next, m, first, next, fetch(p).seqNo, Last(), now, p);
        batch' := SettleSigner(p, fetch(p).seqNo, GetSeqs(toInsert, p), p in newLocals, now, batch');
        SubMapTrans(byHash, items, old(byHash));
        SettlingOne(plan, m, first, next, bySigner, firstSeqs, nextSeqs, rest, p);
        DrainsOne(plan.m, m, old(isLocalAccount), isLocalAccount, rest, p, fetch(p).seqNo, plan.ends[p], p in newLocals);
        ClearIfEmpty(p);
        rest := rest - {p};
      }
      SettlingEnds(plan, bySigner, firstSeqs, nextSeqs);
      DrainsEnd(plan.m, bySigner, old(isLocalAccount), isLocalAccount);
    }

    // ----- limits -----

    /** Discards the listed orders of one queue. */
    method DropOrders(drop: seq<Order>, ghost tag: QueueTag, batch: Log<BackupWrite>) returns (batch': Log<BackupWrite>)
      requires Synced(Ix()) && ApplyBackup(db, batch) == byHash && tag != New
      requires forall i, j :: 0 <= i < j < |drop| ==> drop[i] != drop[j]
      requires forall o :: o in drop ==> o in QueueOf(Ix(), tag)
      modifies this`current, this`future, this`bySigner, this`byHash
      ensures Synced(Ix()) && ApplyBackup(db, batch') == byHash && SubMap(byHash, old(byHash))
      ensures bySigner == WithoutOrders(old(bySigner), tag, Elements<Order>(drop))
    {
      hide Synced, ApplyBackup, WithoutOrders, QueueOf, Linked;
      batch' := batch;
      TakeNone(bySigner, tag);
      assert Elements<Order>(drop[..0]) == {};
      for i := 0 to |drop|
        invariant Synced(Ix()) && ApplyBackup(db, batch') == byHash && SubMap(byHash, old(byHash))
        invariant bySigner == WithoutOrders(old(bySigner), tag, Elements<Order>(drop[..i]))
      {
        assert drop[i] in drop && drop[i] !in drop[..i];
        assert drop[..i + 1] == drop[..i] + [drop[i]];
        FindOrder(old(Ix()), drop[i], tag);
        SyncedParts(old(Ix()));
        ghost var s0 := SlotOf(old(byHash)[drop[i].hash]);
        TakeOne(old(bySigner), tag, Elements<Order>(drop[..i]), s0, old(byHash));
        ElementsPush<Order>(drop[..i], drop[i]);
        SlotQueued(Ix(), s0);
        batch' := Discard(SlotOf(byHash[drop[i].hash]), batch');
      }
      assert drop[..|drop|] == drop;
    }

    /** Discards the external transactions of a queue that exceed a limit. */
    method EnforceQueue(tag: QueueTag, batch: Log<BackupWrite>) returns (batch': Log<BackupWrite>)
      requires Synced(Ix()) && ApplyBackup(db, batch) == byHash && tag != New
      modifies this`current, this`future, this`bySigner, this`byHash
      ensures Synced(Ix()) && ApplyBackup(db, batch') == byHash && SubMap(byHash, old(byHash))
      ensures bySigner == WithoutOrders(old(bySigner), tag, ToDrop(OrdersIn(old(bySigner), tag), countLimit, memoryLimit))
    {
      hide Synced, ApplyBackup, WithoutOrders, Externals, ExternalMem, Separated, Linked, CountsFees, OrdersIn, OverLimit;
      SyncedParts(Ix());
      QueueIsOrders(Ix(), tag);
      batch' := batch;
      var base := if tag == Current then current.base else future;
      var drop := [];
      if base.memUsage > memoryLimit || base.count > countLimit {
        drop := GetOrdersToDrop(base.queue, countLimit, memoryLimit);
      }
      assert Elements<Order>(drop) == ToDrop(base.queue, countLimit, memoryLimit);
      DroppedQueued(base.queue, countLimit, memoryLimit);
      forall o | o in drop ensures o in QueueOf(Ix(), tag) {
        assert o in Elements<Order>(drop);
      }
      batch' := DropOrders(drop, tag, batch');
    }

    /** Discards what exceeds the limits of the two queues: what is left is within both limits and sorts before
        what had to go. */
    method EnforceLimit(batch: Log<BackupWrite>) returns (batch': Log<BackupWrite>)
      requires Synced(Ix()) && ApplyBackup(db, batch) == byHash
      requires forall s :: s in bySigner ==> bySigner[s].tag != New
      modifies this`current, this`future, this`bySigner, this`byHash
      ensures bySigner == EvictedTable(old(bySigner), countLimit, memoryLimit)
      ensures forall tag :: tag != New ==>
                var all := OrdersIn(old(bySigner), tag);
                IsEviction(all, Externals(OrdersIn(bySigner, tag)), ToDrop(all, countLimit, memoryLimit), countLimit, memoryLimit)
      ensures Synced(Ix()) && ApplyBackup(db, batch') == byHash && SubMap(byHash, old(byHash))
    {
      hide Synced, ApplyBackup, IsEviction, Externals, WithoutOrders, OrdersIn, SubMap, ToDrop, EvictedTable, Linked, CountsFees,
           ExternalMem, Separated;
      EvictedOneByOne(bySigner, countLimit, memoryLimit);
      forall tag | tag != New ensures Separated(OrdersIn(bySigner, tag)) {
        QueueIsOrders(Ix(), tag);
        SyncedParts(Ix());
      }
      forall tag | tag != New
        ensures var all := OrdersIn(bySigner, tag);
                IsEviction(all, Externals(OrdersIn(EvictedTable(bySigner, countLimit, memoryLimit), tag)),
                           ToDrop(all, countLimit, memoryLimit), countLimit, memoryLimit)
      {
        OrdersAfter(bySigner, countLimit, memoryLimit, tag);
      }
      batch' := EnforceQueue(Current, batch);
      ghost var items := byHash;
      batch' := EnforceQueue(Future, batch');
      SubMapTrans(byHash, items, old(byHash));
    }

    // ----- the operations -----

    method Report(inputs: seq<Input>, errors: seq<Option<Error>>) returns (outcomes: seq<Outcome>)
      requires |errors| == |inputs| && forall s :: s in bySigner ==> bySigner[s].tag != New
      ensures |outcomes| == |inputs|
      ensures forall i :: 0 <= i < |inputs| ==> outcomes[i] == OutcomeOf(errors[i], bySigner, SlotFor(inputs[i]))
    {
      outcomes := [];
      for i := 0 to |inputs|
        invariant |outcomes| == i && forall j :: 0 <= j < i ==> outcomes[j] == OutcomeOf(errors[j], bySigner, SlotFor(inputs[j]))
      {
        var slot := SlotFor(inputs[i]);
        var outcome := Rejected(LimitReached);
        if errors[i].Some? {
          outcome := Rejected(errors[i].value);
        } else if slot in bySigner {
          assert bySigner[slot].tag != New;
          outcome := if bySigner[slot].tag == Current then InCurrent else InFuture;
        }
        outcomes := outcomes + [outcome];
      }
    }

    /** The end of a call: the sizes of the indexes are compared and the batch is written. */
    method Commit(now: Now, batch: Log<BackupWrite>)
      requires Synced(Ix()) && AllPlaced(bySigner, firstSeqs, nextSeqs) && ApplyBackup(db, batch) == byHash
      modifies this`lastBlockNumber, this`lastTimestamp, this`db
      ensures db == byHash && Last() == now
    {
      hide Synced, ApplyBackup, AllPlaced;
      lastBlockNumber, lastTimestamp := now.block, now.timestamp;
      NothingNew(bySigner, firstSeqs, nextSeqs);
      SizesAgree(Ix());
      assert |current.base.queue| + |future.queue| == |byHash|;
      assert SumOf(current.feeCounter) == |current.base.queue|;
      assert |bySigner| == |byHash|;
      db := ApplyBackup(db, batch);
    }

    /** Adds transactions. The call panics if and only if an input is accepted although an earlier input of the
        same batch took its slot; nothing is promised then. */
    method Add(inputs: seq<Input>, now: Now, fetch: Public -> Account) returns (panicked: bool, outcomes: seq<Outcome>)
      requires Valid()
      modifies this
      ensures panicked <==> PanicsOn(old(State()), AddCall(inputs, now, fetch))
      ensures !panicked ==> IsAddition(old(State()), AddCall(inputs, now, fetch), State())
      ensures !panicked ==> |outcomes| == |inputs| && forall i :: 0 <= i < |inputs| ==>
                outcomes[i] == OutcomeOf(AnswerTo(Policy(), old(Contents()), inputs, i, now, fetch), bySigner, SlotFor(inputs[i]))
      ensures !panicked ==> forall tag :: tag != New ==>
                var all := OrdersIn(Staged(old(State()), AddCall(inputs, now, fetch)), tag);
                IsEviction(all, Externals(OrdersIn(bySigner, tag)), ToDrop(all, countLimit, memoryLimit), countLimit, memoryLimit)
      ensures !panicked ==> Valid()
    {
      hide Synced, ApplyBackup, IdsBelow, AllPlaced, AllOpen, Panics, Replay, LocalSigners, SettledTable, SeqsSettled, NewEnds,
           StillLocal, EvictedTable, ItemsOf, IsEviction, ToDrop, OrdersIn, Externals, AnswerTo, Linked, SubMap, OutcomeOf;
      ghost var a, c := State(), AddCall(inputs, now, fetch);
      var errors, toInsert, newLocals, batch;
      panicked, errors, toInsert, newLocals, batch := Gather(inputs, now, fetch);
      outcomes := [];
      if panicked {
        return;
      }
      ghost var items := byHash;
      batch := SettleAll(fetch, toInsert, newLocals, now, batch);
      ghost var settledItems := byHash;
      StagedPlaced(a, c, firstSeqs, nextSeqs);
      NothingNew(bySigner, firstSeqs, nextSeqs);
      batch := EnforceLimit(batch);
      SubMapTrans(byHash, settledItems, items);
      IdsPart(items, byHash, nextTransactionId);
      LinkedIx(Ix());
      ItemsFollow(items, byHash, bySigner);
      EvictedPart(Staged(a, c), countLimit, memoryLimit);
      PlacedPart(Staged(a, c), bySigner, firstSeqs, nextSeqs);
      Commit(now, batch);
      NothingNew(bySigner, firstSeqs, nextSeqs);
      outcomes := Report(inputs, errors);
    }

    // ----- removing -----

    /** Takes the listed transactions out and notes the lowest seq that each signer has lost. */
    method Purge(hashes: seq<H256>, fetch: Public -> Account) returns (removed: map<Public, nat>, batch: Log<BackupWrite>)
      requires Synced(Ix()) && db == byHash && AllPlaced(bySigner, firstSeqs, nextSeqs)
      modifies this`current, this`future, this`bySigner, this`byHash
      ensures byHash == old(byHash) - Elements<H256>(hashes) && bySigner == Purged(old(bySigner), Elements<H256>(hashes))
      ensures Notes(old(bySigner), Elements<H256>(hashes), fetch, removed)
      ensures Synced(Ix()) && ApplyBackup(db, batch) == byHash
    {
      hide Synced, ApplyBackup, AllPlaced, Purged, Notes, Linked, SubMap;
      removed, batch := map[], Empty;
      NoBackup(db);
      NothingLost(bySigner, fetch);
      NothingNew(bySigner, firstSeqs, nextSeqs);
      assert Elements<H256>(hashes[..0]) == {};
      for i := 0 to |hashes|
        invariant byHash == old(byHash) - Elements<H256>(hashes[..i]) && bySigner == Purged(old(bySigner), Elements<H256>(hashes[..i]))
        invariant Notes(old(bySigner), Elements<H256>(hashes[..i]), fetch, removed)
        invariant Synced(Ix()) && ApplyBackup(db, batch) == byHash
      {
        var hash := hashes[i];
        assert hashes[..i + 1] == hashes[..i] + [hash];
        ElementsPush<H256>(hashes[..i], hash);
        LinkedIx(old(Ix()));
        PurgeOne(old(byHash), old(bySigner), Elements<H256>(hashes[..i]), hash, fetch, removed);
        if hash in byHash {
          var s := SlotOf(byHash[hash]);
          ItemSlot(Ix(), hash);
          PurgedPart(old(bySigner), Elements<H256>(hashes[..i]));
          TagsPart(old(bySigner), bySigner);
          assert bySigner[s].tag != New;
          batch := Discard(s, batch);
          if fetch(s.signer).seqNo <= s.seqNo {
            if !(s.signer in removed && removed[s.signer] <= s.seqNo) {
              removed := removed[s.signer := s.seqNo];
            }
          }
        }
      }
      assert hashes[..|hashes|] == hashes;
    }

    /** The end of the signer's run after a removal. */
    method NextAfterRemove(p: Public, accountSeq: nat, removed: Option<nat>, now: Now) returns (newNext: nat)
      ensures newNext == EndAfterLoss(bySigner, removed, firstSeqs, nextSeqs, accountSeq, Last(), now, p)
    {
      hide IsRun;
      var firstSeq := Get(firstSeqs, p, 0);
      var next := Get(nextSeqs, p, accountSeq);
      if accountSeq < firstSeq || now.block < lastBlockNumber || now.timestamp < lastTimestamp || next < accountSeq {
        newNext := CheckTransactions(p, accountSeq, now);
        RunIsUnique(bySigner, p, accountSeq, newNext, RunEnd(bySigner, p, accountSeq, now), now);
      } else if removed.Some? {
        newNext := removed.value;
      } else {
        newNext := CheckTransactions(p, next, now);
        RunIsUnique(bySigner, p, next, newNext, RunEnd(bySigner, p, next, now), now);
      }
    }

    /** Brings one signer's row up to date after a removal. */
    method ResettleSigner(p: Public, accountSeq: nat, removed: Option<nat>, now: Now, batch: Log<BackupWrite>)
        returns (batch': Log<BackupWrite>)
      requires Synced(Ix()) && ApplyBackup(db, batch) == byHash && RowPlaced(bySigner, firstSeqs, nextSeqs, p)
      modifies this`current, this`future, this`bySigner, this`byHash, this`firstSeqs, this`nextSeqs
      ensures var end := EndAfterLoss(old(bySigner), removed, old(firstSeqs), old(nextSeqs), accountSeq, Last(), now, p);
              && bySigner == SettledRow(old(bySigner), p, accountSeq, end, false)
              && Get(firstSeqs, p, 0) == accountSeq && NextIs(nextSeqs, p, accountSeq, end)
      ensures firstSeqs - {p} == old(firstSeqs) - {p} && nextSeqs - {p} == old(nextSeqs) - {p}
      ensures Synced(Ix()) && ApplyBackup(db, batch') == byHash && SubMap(byHash, old(byHash))
    {
      hide Synced, Placed, ApplyBackup, EndAfterLoss, Reordered, SettledRow, SubMap, NextIs;
      var newNext := NextAfterRemove(p, accountSeq, removed, now);
      PlacedSettles(bySigner, firstSeqs, nextSeqs, p, accountSeq, newNext);
      batch' := Reconcile(p, accountSeq, newNext, false, batch);
    }

    /** Every signer's row is brought up to date, in any order. */
    method ResettleAll(fetch: Public -> Account, removed: map<Public, nat>, now: Now, batch: Log<BackupWrite>)
        returns (batch': Log<BackupWrite>)
      requires Synced(Ix()) && ApplyBackup(db, batch) == byHash && AllPlaced(bySigner, firstSeqs, nextSeqs)
      modifies this`current, this`future, this`bySigner, this`byHash, this`firstSeqs, this`nextSeqs, this`isLocalAccount
      ensures var ends := EndsAfterLoss(old(bySigner), removed, old(firstSeqs), old(nextSeqs), fetch, Last(), now);
              && bySigner == SettledTable(old(bySigner), fetch, ends, {})
              && SeqsSettled(Signers(old(bySigner)), fetch, ends, old(firstSeqs), old(nextSeqs), firstSeqs, nextSeqs, {})
      ensures isLocalAccount == StillLocal(old(isLocalAccount), old(bySigner), bySigner)
      ensures Synced(Ix()) && ApplyBackup(db, batch') == byHash && SubMap(byHash, old(byHash))
    {
      hide Synced, ApplyBackup, AllPlaced, Settling, Drains, SubMap, EndAfterLoss, SettledRow, SettledTable, SeqsSettled, NextIs,
           RowPlaced, SameRow, SameSeq, Signers, StillLocal;
      batch' := batch;
      ghost var plan := Plan(bySigner, firstSeqs, nextSeqs, fetch,
                             EndsAfterLoss(bySigner, removed, firstSeqs, nextSeqs, fetch, Last(), now), {});
      var rest := Signers(bySigner);
      SettlingStarts(plan);
      DrainsStart(bySigner, isLocalAccount, rest);
      SameMap(byHash);
      while rest != {}
        invariant rest <= Signers(plan.m) && Settling(plan, bySigner, firstSeqs, nextSeqs, rest)
        invariant Drains(plan.m, bySigner, old(isLocalAccount), isLocalAccount, rest)
        invariant Synced(Ix()) && ApplyBackup(db, batch') == byHash && SubMap(byHash, old(byHash))
        decreases |rest|
      {
        var p :| p in rest;
        ghost var m, first, next, items := bySigner, firstSeqs, nextSeqs, byHash;
        SettlingRow(plan, m, first, next, rest, p);
        PlacedRow(plan.m, plan.first, plan.next, p);
        SameRowOpen(plan.m, plan.first, plan.next, m, first, next, 0, [], p);
        SameRowLoss(plan.m, plan.first, plan.next, m, first, next, Find(removed, p), fetch(p).seqNo, Last(), now, p);
        batch' := ResettleSigner(p, fetch(p).seqNo, Find(removed, p), now, batch');
        SubMapTrans(byHash, items, old(byHash));
        SettlingOne(plan, m, first, next, bySigner, firstSeqs, nextSeqs, rest, p);
        DrainsOne(plan.m, m, old(isLocalAccount), isLocalAccount, rest, p, fetch(p).seqNo, plan.ends[p], false);
        ClearIfEmpty(p);
        rest := rest - {p};
      }
      SettlingEnds(plan, bySigner, firstSeqs, nextSeqs);
      DrainsEnd(plan.m, bySigner, old(isLocalAccount), isLocalAccount);
    }

    /** Removes transactions; of the account only the seq is looked at. */
    method Remove(hashes: seq<H256>, fetch: Public -> Account, now: Now)
      requires Valid()
      modifies this
      ensures IsRemoval(old(State()), RemoveCall(Elements<H256>(hashes), now, fetch), State())
      ensures Valid()
    {
      hide Synced, ApplyBackup, IdsBelow, AllPlaced, SettledTable, SeqsSettled, EndsAfterLoss, RemovedEnds, Purged, Notes,
           StillLocal, ItemsOf, Linked, SubMap, Signers;
      ghost var a, c := State(), RemoveCall(Elements<H256>(hashes), now, fetch);
      var removed, batch := Purge(hashes, fetch);
      ghost var items := byHash;
      PurgedPart(a.tables.bySigner, c.hashes);
      PlacedPart(a.tables.bySigner, bySigner, firstSeqs, nextSeqs);
      EndsByNotes(a.tables.bySigner, c.hashes, firstSeqs, nextSeqs, fetch, removed, Last(), now);
      batch := ResettleAll(fetch, removed, now, batch);
      WithoutPart(a.tables.byHash, c.hashes);
      SubMapTrans(byHash, items, a.tables.byHash);
      IdsPart(a.tables.byHash, byHash, nextTransactionId);
      LinkedIx(Ix());
      ItemsFollow(a.tables.byHash, byHash, bySigner);
      RemovedPlaces(a, c, firstSeqs, nextSeqs);
      Commit(now, batch);
    }

    /** Lists the transactions that have been in the pool for too long, have expired or have become too expensive. */
    method Stale(fetch: Public -> Account, now: Now) returns (stale: seq<H256>)
      ensures Elements<H256>(stale) == StaleHashes(byHash, fetch, now, maxBlockPeriod)
    {
      stale := [];
      var rest := byHash.Keys;
      while rest != {}
        invariant rest <= byHash.Keys
        invariant forall h :: h in stale <==>
                    h in byHash && h !in rest && IsStale(byHash[h], fetch(byHash[h].tx.signer), now, maxBlockPeriod)
        decreases |rest|
      {
        var h :| h in rest;
        var item := byHash[h];
        if item.origin != Local {
          var age := if now.block < item.block then 0 else now.block - item.block;
          if item.Expiration().Some? && item.Expiration().value < now.timestamp {
            stale := stale + [h];
          } else if age > maxBlockPeriod {
            stale := stale + [h];
          } else if age > maxBlockPeriod / 8 {
            if item.Cost() > fetch(item.tx.signer).balance {
              stale := stale + [h];
            }
          }
        }
        rest := rest - {h};
      }
    }

    /** Removes the stale transactions and those older than their account. */
    method RemoveOld(fetch: Public -> Account, now: Now)
      requires Valid()
      modifies this
      ensures IsRemoval(old(State()), RemoveCall(old(StaleHashes(byHash, fetch, now, maxBlockPeriod)), now, fetch), State())
      ensures forall h :: h in byHash ==> h in old(byHash) && byHash[h] == old(byHash)[h]
      ensures forall h :: h in old(byHash) ==>
                var item := old(byHash)[h];
                var account := fetch(item.tx.signer);
                h in byHash <==>
                  && account.seqNo <= item.tx.seqNo
                  && (|| item.origin == Local
                      || (&& now.block <= item.block + maxBlockPeriod
                          && (item.tx.action.TransferAsset? && item.tx.action.expiration.Some? ==>
                                now.timestamp <= item.tx.action.expiration.value)
                          && (now.block > item.block + maxBlockPeriod / 8 ==>
                                && item.tx.fee <= account.balance
                                && (item.tx.action.Pay? ==> item.tx.fee + item.tx.action.quantity <= account.balance)
                                && (item.tx.action.WrapCCC? ==> item.tx.fee + item.tx.action.quantity <= account.balance))))
      ensures Valid()
    {
      hide Synced, AllPlaced, IdsBelow, IsRemoval, IsStale, Linked;
      ghost var a := State();
      LinkedIx(Ix());
      var stale := Stale(fetch, now);
      Remove(stale, fetch, now);
      forall h ensures h in byHash <==>
                h in a.tables.byHash && !IsStale(a.tables.byHash[h], fetch(a.tables.byHash[h].tx.signer), now, maxBlockPeriod)
                && fetch(a.tables.byHash[h].tx.signer).seqNo <= a.tables.byHash[h].tx.seqNo
        ensures h in byHash ==> byHash[h] == a.tables.byHash[h]
      {
        RemovalKeeps(a, RemoveCall(Elements<H256>(stale), now, fetch), State(), h);
      }
      forall h | h in a.tables.byHash {
        StaleInWords(a.tables.byHash[h], fetch(a.tables.byHash[h].tx.signer), now, maxBlockPeriod);
      }
    }

    // ----- recovering -----

    /** Enters one stored transaction into the tables. */
    method LoadOne(h: H256, ghost rest: set<H256>, fetch: Public -> Account, toInsert: map<Public, seq<nat>>, maxId: nat)
        returns (toInsert': map<Public, seq<nat>>, maxId': nat)
      requires IsBackup(db) && Part(db, rest, byHash) && h in rest && h in db && !IsOld(db[h], fetch)
      requires Synced(Ix()) && IdsBelow(byHash, maxId + 1) && isLocalAccount == LocalOwners(byHash)
      requires AllOpen(bySigner, firstSeqs, nextSeqs, fetch, toInsert) && FromItems(bySigner, byHash, fetch) && AllNew(bySigner)
      modifies this`bySigner, this`byHash, this`isLocalAccount
      ensures Part(db, rest - {h}, byHash) && IdsBelow(byHash, maxId' + 1) && isLocalAccount == LocalOwners(byHash)
      ensures AllOpen(bySigner, firstSeqs, nextSeqs, fetch, toInsert') && FromItems(bySigner, byHash, fetch) && AllNew(bySigner)
      ensures Synced(Ix())
    {
      hide Synced, AllOpen, Describes, IsBackup, Part, IdsBelow, FromItems, AllNew, LocalOwners;
      var item := db[h];
      var s := SlotOf(item);
      StoredItem(db, h);
      FreshSlot(db, Ix(), rest, h);
      MoreIds(byHash, maxId, item);
      LoadedOne(bySigner, byHash, fetch, item);
      var order := ForTransaction(item, fetch(s.signer).seqNo);
      DescribesNew(item, fetch(s.signer).seqNo);
      AddedSynced(Ix(), item, order);
      InsertedOpen(bySigner, firstSeqs, nextSeqs, fetch, toInsert, s, order);
      maxId' := if item.id > maxId then item.id else maxId;
      byHash := byHash[h := item];
      bySigner := bySigner[s := Tagged(order, New)];
      if item.origin == Local {
        isLocalAccount := isLocalAccount + {s.signer};
      }
      toInsert' := toInsert[s.signer := GetSeqs(toInsert, s.signer) + [s.seqNo]];
    }

    /** Loads every stored transaction into the tables, until one is older than its account. */
    method Load(fetch: Public -> Account) returns (overflowed: bool, toInsert: map<Public, seq<nat>>, maxId: nat)
      requires IsBackup(db) && firstSeqs == map[] && nextSeqs == map[]
      requires Synced(Ix()) && bySigner == map[] && byHash == map[] && isLocalAccount == {}
      modifies this`bySigner, this`byHash, this`isLocalAccount
      ensures overflowed <==> HasOld(db, fetch)
      ensures !overflowed ==> byHash == db
      ensures IdsBelow(byHash, maxId + 1) && isLocalAccount == LocalOwners(byHash)
      ensures AllOpen(bySigner, firstSeqs, nextSeqs, fetch, toInsert) && FromItems(bySigner, byHash, fetch) && AllNew(bySigner)
      ensures Synced(Ix())
    {
      hide Synced, AllOpen, IdsBelow, IsBackup, Part, FromItems, AllNew, LocalOwners;
      overflowed, toInsert, maxId := false, map[], 0;
      var rest := db.Keys;
      EmptyPlaced();
      PlacedIsOpen(map[], map[], map[], fetch);
      NothingLoaded(db, fetch);
      while rest != {}
        invariant rest <= db.Keys && forall h :: h in db && h !in rest ==> !IsOld(db[h], fetch)
        invariant Part(db, rest, byHash) && IdsBelow(byHash, maxId + 1) && isLocalAccount == LocalOwners(byHash)
        invariant AllOpen(bySigner, firstSeqs, nextSeqs, fetch, toInsert) && FromItems(bySigner, byHash, fetch) && AllNew(bySigner)
        invariant Synced(Ix())
        decreases |rest|
      {
        var h :| h in rest;
        if IsOld(db[h], fetch) {
          overflowed := true;
          return;
        }
        toInsert, maxId := LoadOne(h, rest, fetch, toInsert, maxId);
        rest := rest - {h};
      }
      AllLoaded(db, byHash);
    }

    /** Sorts one signer's loaded transactions into the queues. */
    method RecoverSigner(p: Public, accountSeq: nat, seqs: seq<nat>, now: Now)
      requires Synced(Ix()) && RowOpen(bySigner, firstSeqs, nextSeqs, accountSeq, seqs, p)
      requires p !in nextSeqs && forall s :: s in bySigner && s.signer == p ==> bySigner[s].tag == New
      modifies this`current, this`future, this`bySigner, this`firstSeqs, this`nextSeqs
      ensures var end := RunEnd(old(bySigner), p, accountSeq, now);
              && bySigner == SettledRow(old(bySigner), p, accountSeq, end, false)
              && Get(firstSeqs, p, 0) == accountSeq && NextIs(nextSeqs, p, accountSeq, end)
      ensures firstSeqs - {p} == old(firstSeqs) - {p} && nextSeqs - {p} == old(nextSeqs) - {p}
      ensures Synced(Ix())
    {
      hide Synced, Placed, Unplaced, IsRun, Settled, SettledRow, ReadyAt;
      ListedRow(bySigner, p, accountSeq, seqs);
      var waiting := CheckNewTransactions(p, seqs, accountSeq, now);
      var next;
      if waiting.Some? {
        next := waiting.value;
      } else {
        next := CheckTransactions(p, accountSeq, now);
        RunIsUnique(bySigner, p, accountSeq, next, RunEnd(bySigner, p, accountSeq, now), now);
      }
      NewRowSettles(bySigner, p, accountSeq, seqs, next);
      firstSeqs := firstSeqs[p := accountSeq];
      if next > accountSeq {
        nextSeqs := nextSeqs[p := next];
      }
      AddNewOrdersToQueue(p, seqs, next);
    }

    /** Sorts the loaded transactions of every signer into the queues, in any order. */
    method RecoverAll(fetch: Public -> Account, toInsert: map<Public, seq<nat>>, now: Now)
      requires Synced(Ix()) && AllOpen(bySigner, firstSeqs, nextSeqs, fetch, toInsert)
      requires firstSeqs == map[] && nextSeqs == map[] && AllNew(bySigner)
      modifies this`current, this`future, this`bySigner, this`firstSeqs, this`nextSeqs, this`isLocalAccount
      ensures var ends := RunEnds(old(bySigner), fetch, now);
              && bySigner == SettledTable(old(bySigner), fetch, ends, {})
              && SeqsSettled(Signers(old(bySigner)), fetch, ends, map[], map[], firstSeqs, nextSeqs, {})
      ensures isLocalAccount == StillLocal(old(isLocalAccount), old(bySigner), bySigner)
      ensures Synced(Ix())
    {
      hide Synced, AllOpen, AllNew, Settling, Drains, RunEnd, SettledRow, SettledTable, SeqsSettled, NextIs, RowOpen, SameRow, Signers,
           StillLocal;
      ghost var plan := Plan(bySigner, firstSeqs, nextSeqs, fetch, RunEnds(bySigner, fetch, now), {});
      var rest := Signers(bySigner);
      SettlingStarts(plan);
      DrainsStart(bySigner, isLocalAccount, rest);
      while rest != {}
        invariant rest <= Signers(plan.m) && Settling(plan, bySigner, firstSeqs, nextSeqs, rest)
        invariant Drains(plan.m, bySigner, old(isLocalAccount), isLocalAccount, rest)
        invariant Synced(Ix())
        decreases |rest|
      {
        var p :| p in rest;
        ghost var m, first, next := bySigner, firstSeqs, nextSeqs;
        SettlingRow(plan, m, first, next, rest, p);
        OpenRow(plan.m, plan.first, plan.next, fetch, toInsert, p);
        SameRowOpen(plan.m, plan.first, plan.next, m, first, next, fetch(p).seqNo, GetSeqs(toInsert, p), p);
        SameRowRun(plan.m, m, fetch(p).seqNo, now, p);
        NewRowStays(plan.m, m, p);
        RecoverSigner(p, fetch(p).seqNo, GetSeqs(toInsert, p), now);
        SettlingOne(plan, m, first, next, bySigner, firstSeqs, nextSeqs, rest, p);
        DrainsOne(plan.m, m, old(isLocalAccount), isLocalAccount, rest, p, fetch(p).seqNo, plan.ends[p], false);
        ClearIfEmpty(p);
        rest := rest - {p};
      }
      SettlingEnds(plan, bySigner, firstSeqs, nextSeqs);
      DrainsEnd(plan.m, bySigner, old(isLocalAccount), isLocalAccount);
    }

    /** Rebuilds the pool from its backup: the same items, their orders as if they had just come in, and every
        signer placed exactly. The height of a transaction older than its account overflows; nothing is promised then. */
    method RecoverFromDb(fetch: Public -> Account, now: Now) returns (overflowed: bool)
      requires IsBackup(db) && firstSeqs == map[] && nextSeqs == map[]
      requires Synced(Ix()) && bySigner == map[] && byHash == map[] && isLocalAccount == {}
      modifies this
      ensures overflowed <==> HasOld(old(db), fetch)
      ensures !overflowed ==> Last() == now && byHash == db == old(db)
      ensures !overflowed ==> FromItems(bySigner, byHash, fetch)
      ensures !overflowed ==> forall p ::
                p in isLocalAccount <==> exists h :: h in byHash && byHash[h].origin == Local && byHash[h].tx.signer == p
      ensures !overflowed ==> Based(bySigner, firstSeqs, fetch) && forall p :: Exact(bySigner, firstSeqs, nextSeqs, now, p)
      ensures !overflowed ==> AllCurrentAreRuns(bySigner, fetch, now)
      ensures !overflowed ==> Valid()
    {
      hide Based, Synced, AllOpen, AllPlaced, IdsBelow, IsBackup, Exact, FromItems, AllNew, LocalOwners, SettledTable, SeqsSettled,
           StillLocal, Signers, RunEnds, HasOld, AllCurrentAreRuns;
      var toInsert, maxId;
      overflowed, toInsert, maxId := Load(fetch);
      if overflowed {
        return;
      }
      ghost var m := bySigner;
      RecoveredOrders(m, byHash, fetch, RunEnds(m, fetch, now), isLocalAccount);
      RecoverAll(fetch, toInsert, now);
      RecoveredExact(m, fetch, now, firstSeqs, nextSeqs);
      lastBlockNumber, lastTimestamp := now.block, now.timestamp;
      nextTransactionId := maxId + 1;
      AllExactAreRuns(State(), fetch);
      OwnersInWords(byHash);
    }
  }
}
