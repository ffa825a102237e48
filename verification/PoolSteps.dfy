/** What a whole addition or removal does to the pool, as relations between its states
    (core/src/miner/mem_pool.rs, `add`, `remove` and `remove_old`). */
module PoolSteps {
  import opened Prelude
  import opened PoolTypes
  import opened PoolIndex
  import opened Placement
  import opened Admission
  import opened Eviction
  import opened Removal

  datatype PoolState = PoolState(rules: Rules, memoryLimit: nat, tables: Tables, first: map<Public, nat>, next: map<Public, nat>,
                                 last: Now)
  {
    /** The signer's current transactions are its maximal ready run. */
    ghost predicate IsExact(p: Public) { Exact(tables.bySigner, first, next, last, p) }
  }

  /** The tables agree, and every transaction is in the queue that the recorded seqs say. */
  ghost predicate Sound(a: PoolState) {
    Linked(a.tables.byHash, a.tables.bySigner) && AllPlaced(a.tables.bySigner, a.first, a.next)
  }

  /** The heights are counted from the account seqs. */
  ghost predicate Based(m: Table, first: map<Public, nat>, fetch: Public -> Account) {
    forall p :: p in Signers(m) ==> Get(first, p, 0) == fetch(p).seqNo
  }

  /** The items whose orders are in the table. */
  ghost function ItemsOf(items: map<H256, Item>, m: Table): map<H256, Item> {
    map h | h in items && SlotOf(items[h]) in m && m[SlotOf(items[h])].order.hash == h :: items[h]
  }

  lemma ItemsFollow(items: map<H256, Item>, items': map<H256, Item>, m: Table)
    requires SubMap(items', items) && Linked(items', m)
    ensures items' == ItemsOf(items, m)
  {
    hide Describes;
    forall h ensures h in items' <==> h in ItemsOf(items, m) {
      if h in ItemsOf(items, m) {
        assert m[SlotOf(items[h])].order.hash in items';
      }
    }
  }

  lemma ExactIsRun(b: PoolState, fetch: Public -> Account, p: Public)
    requires AllPlaced(b.tables.bySigner, b.first, b.next) && Based(b.tables.bySigner, b.first, fetch) && b.IsExact(p)
    ensures CurrentIsRun(b.tables.bySigner, fetch, b.last, p)
  {
    hide AllPlaced, Exact;
    var m := b.tables.bySigner;
    PlacedRow(m, b.first, b.next, p);
    if p in Signers(m) {
      ExactUpTo(m, b.first, b.next, b.last, p);
    } else {
      forall n: nat ensures Slot(p, n) !in m {
        assert Slot(p, n) in m ==> Slot(p, n).signer in Signers(m);
      }
      assert CurrentUpTo(m, p, fetch(p).seqNo, fetch(p).seqNo, b.last);
    }
  }

  lemma AllExactAreRuns(b: PoolState, fetch: Public -> Account)
    requires AllPlaced(b.tables.bySigner, b.first, b.next) && Based(b.tables.bySigner, b.first, fetch) && forall p :: b.IsExact(p)
    ensures AllCurrentAreRuns(b.tables.bySigner, fetch, b.last)
  {
    hide AllPlaced, Based, PoolState.IsExact, CurrentIsRun;
    forall p ensures CurrentIsRun(b.tables.bySigner, fetch, b.last, p) {
      ExactIsRun(b, fetch, p);
    }
  }

  // ----- additions -----

  datatype AddCall = AddCall(inputs: seq<Input>, now: Now, fetch: Public -> Account)

  ghost predicate PanicsOn(a: PoolState, c: AddCall) { Panics(a.rules, a.tables, c.inputs, c.now, c.fetch) }

  /** The tables after the first pass. */
  ghost function Replayed(a: PoolState, c: AddCall): Tables { Replay(a.rules, a.tables, c.inputs, c.now, c.fetch) }

  ghost function AddEnds(a: PoolState, c: AddCall): (ends: map<Public, nat>)
    ensures ends.Keys == Signers(Replayed(a, c).bySigner) && forall p :: p in ends ==> c.fetch(p).seqNo <= ends[p]
  {
    NewEnds(Replayed(a, c).bySigner, a.first, a.next, c.fetch, a.last, c.now)
  }

  /** The table after the second pass, before the limits are enforced. */
  ghost function Staged(a: PoolState, c: AddCall): Table {
    SettledTable(Replayed(a, c).bySigner, c.fetch, AddEnds(a, c), LocalSigners(c.inputs) - a.tables.locals)
  }

  ghost predicate IsAddition(a: PoolState, c: AddCall, b: PoolState) {
    var replayed, staged := Replayed(a, c), Staged(a, c);
    && b.rules == a.rules && b.memoryLimit == a.memoryLimit && b.last == c.now
    && b.tables.bySigner == EvictedTable(staged, a.rules.countLimit, a.memoryLimit)
    && b.tables.byHash == ItemsOf(replayed.byHash, b.tables.bySigner)
    && b.tables.locals == StillLocal(replayed.locals, replayed.bySigner, staged)
    && b.tables.nextId == replayed.nextId
    && SeqsSettled(Signers(replayed.bySigner), c.fetch, AddEnds(a, c), a.first, a.next, b.first, b.next, {})
  }

  /** No limit takes a current transaction of the signer away. */
  ghost predicate Spared(m: Table, limit: nat, memLimit: nat, p: Public) {
    forall s :: s in m && s.signer == p && m[s].tag == Current ==> !Evicted(m, s, limit, memLimit)
  }

  lemma StagedPlaced(a: PoolState, c: AddCall, first: map<Public, nat>, next: map<Public, nat>)
    requires SeqsSettled(Signers(Replayed(a, c).bySigner), c.fetch, AddEnds(a, c), a.first, a.next, first, next, {})
    ensures AllPlaced(Staged(a, c), first, next)
  {
    hide SeqsSettled, Replayed, AllPlaced, SettledTable;
    SettledPlaced(Replayed(a, c).bySigner, c.fetch, AddEnds(a, c), LocalSigners(c.inputs) - a.tables.locals, a.first, a.next, first, next);
  }

  lemma EvictedPart(m: Table, limit: nat, memLimit: nat)
    ensures SubMap(EvictedTable(m, limit, memLimit), m)
  {
  }

  /** After an addition every queue is what the recorded seqs say, and heights are counted from the account seqs. */
  lemma AdditionPlaces(a: PoolState, c: AddCall, b: PoolState)
    requires IsAddition(a, c, b)
    ensures AllPlaced(b.tables.bySigner, b.first, b.next) && Based(b.tables.bySigner, b.first, c.fetch)
  {
    hide SeqsSettled, AllPlaced, SettledTable, EvictedTable, Replayed;
    StagedPlaced(a, c, b.first, b.next);
    EvictedPart(Staged(a, c), a.rules.countLimit, a.memoryLimit);
    PlacedPart(Staged(a, c), b.tables.bySigner, b.first, b.next);
    AdditionBases(a, c, b);
  }

  lemma AdditionBases(a: PoolState, c: AddCall, b: PoolState)
    requires IsAddition(a, c, b)
    ensures Based(b.tables.bySigner, b.first, c.fetch)
  {
    hide Replayed;
    forall p | p in Signers(b.tables.bySigner) ensures Get(b.first, p, 0) == c.fetch(p).seqNo {
      var s :| s in b.tables.bySigner && s.signer == p;
      assert s in Replayed(a, c).bySigner;
      assert p in Signers(Replayed(a, c).bySigner) && p !in {};
    }
  }

  /** A signer that was placed exactly is staged exactly. */
  lemma StagedExact(a: PoolState, c: AddCall, first: map<Public, nat>, next: map<Public, nat>, p: Public)
    requires a.IsExact(p)
    requires SeqsSettled(Signers(Replayed(a, c).bySigner), c.fetch, AddEnds(a, c), a.first, a.next, first, next, {})
    ensures Exact(Staged(a, c), first, next, c.now, p)
  {
    hide SeqsSettled, IsRun, SettledTable, RunIntact, NewEnd, Replay;
    var base := Get(a.first, p, 0);
    RunIsIntact(a.tables.bySigner, p, base, Get(a.next, p, base), a.last);
    ReplayIntact(a.rules, a.tables, c.inputs, c.now, c.fetch, p, base, Get(a.next, p, base), a.last);
    SettledExact(Replayed(a, c).bySigner, c.fetch, AddEnds(a, c), LocalSigners(c.inputs) - a.tables.locals, a.first, a.next, first, next,
                 c.now, p);
    if p in Signers(Replayed(a, c).bySigner) {
      NewEndIsRun(Replayed(a, c).bySigner, a.first, a.next, c.fetch(p).seqNo, a.last, c.now, p);
    } else {
      RowlessRun(Replayed(a, c).bySigner, p, base, Get(a.next, p, base), a.last);
    }
  }

  lemma RowlessRun(m: Table, p: Public, base: nat, end: nat, now: Now)
    requires RunIntact(m, p, base, end, now) && p !in Signers(m)
    ensures base == end
  {
    assert Slot(p, base) in m ==> Slot(p, base).signer in Signers(m);
  }

  /** Signers that were placed exactly: they still are after an addition, if and only if no limit takes a current
      transaction of theirs away. */
  lemma AdditionExact(a: PoolState, c: AddCall, b: PoolState, p: Public)
    requires IsAddition(a, c, b) && a.IsExact(p)
    ensures b.IsExact(p) <==> Spared(Staged(a, c), a.rules.countLimit, a.memoryLimit, p)
  {
    hide SeqsSettled, Exact, AllPlaced, EvictedTable, Staged, Replayed, Evicted;
    StagedExact(a, c, b.first, b.next, p);
    StagedPlaced(a, c, b.first, b.next);
    PlacedRow(Staged(a, c), b.first, b.next, p);
    EvictedExact(Staged(a, c), a.rules.countLimit, a.memoryLimit, b.first, b.next, c.now, p);
  }

  /** Slots that no input claims keep their transactions up to the height and the origin, unless these are older
      than the account. */
  lemma StagedOthers(a: PoolState, c: AddCall, s: Slot)
    requires Sound(a) && !Claimed(c.inputs, s)
    ensures s in Staged(a, c) <==> s in a.tables.bySigner && c.fetch(s.signer).seqNo <= s.seqNo
    ensures s in Staged(a, c) ==>
              Staged(a, c)[s].order == NewOrder(a.tables.bySigner[s].order, s.seqNo, c.fetch(s.signer).seqNo,
                                                s.signer in LocalSigners(c.inputs) - a.tables.locals)
  {
    hide Replay, Linked, AllPlaced, LocalSigners, NewOrder;
    NothingNew(a.tables.bySigner, a.first, a.next);
    ReplayOthers(a.rules, a.tables, c.inputs, |c.inputs|, c.now, c.fetch);
    assert c.inputs[..|c.inputs|] == c.inputs;
  }

  /** An accepted input is stored and keeps its slot, unless a limit takes it away. Its item says what came in and when; its
      origin is that of the input, except that an external input of an account that is local by then is local. */
  lemma AcceptedStays(a: PoolState, c: AddCall, b: PoolState, i: nat)
    requires Sound(a) && IsAddition(a, c, b) && !PanicsOn(a, c)
    requires i < |c.inputs| && AnswerTo(a.rules, a.tables, c.inputs, i, c.now, c.fetch).None?
    ensures var s, hash := SlotFor(c.inputs[i]), c.inputs[i].tx.hash;
            && s in Staged(a, c)
            && (s in b.tables.bySigner <==> hash in b.tables.byHash)
            && (s in b.tables.bySigner <==> !Evicted(Staged(a, c), s, a.rules.countLimit, a.memoryLimit))
            && (s in b.tables.bySigner ==> b.tables.bySigner[s].order.hash == hash && IsStored(b.tables.byHash[hash], c.inputs[i], c.now))
            && (s in b.tables.bySigner ==>
                  b.tables.byHash[hash].origin
                  == if c.inputs[i].origin == External && s.signer in a.tables.locals + LocalSigners(c.inputs[..i]) then Local
                     else c.inputs[i].origin)
  {
    hide Replay, Linked, AllPlaced, LocalSigners, Evicted, SeqsSettled, StillLocal, Judge, OthersSame;
    assert c.inputs[..|c.inputs|] == c.inputs;
    ReplayListed(a.rules, a.tables, c.inputs, |c.inputs|, c.now, c.fetch, i);
    ReplayOthers(a.rules, a.tables, c.inputs, i, c.now, c.fetch);
    AcceptedNotOld(a.rules, Replay(a.rules, a.tables, c.inputs[..i], c.now, c.fetch), c.inputs[i], c.fetch);
  }

  /** Which accounts are local after an addition: those that were or have sent a local transaction, unless they had
      transactions and all of them were old. */
  lemma LocalsInWords(a: PoolState, c: AddCall, b: PoolState, p: Public)
    requires IsAddition(a, c, b)
    ensures p in b.tables.locals <==>
              && (p in a.tables.locals || exists x :: x in c.inputs && x.origin == Local && x.tx.signer == p)
              && ((exists n: nat :: Slot(p, n) in Replayed(a, c).bySigner) ==> exists n: nat :: Slot(p, n) in Staged(a, c))
  {
    hide Replay, Staged, EvictedTable, ItemsOf, SeqsSettled, OthersSame;
    assert c.inputs[..|c.inputs|] == c.inputs;
    ReplayOthers(a.rules, a.tables, c.inputs, |c.inputs|, c.now, c.fetch);
    HasSlot(Replayed(a, c).bySigner, p);
    HasSlot(Staged(a, c), p);
  }

  lemma HasSlot(m: Table, p: Public)
    ensures p in Signers(m) <==> exists n: nat :: Slot(p, n) in m
  {
    if p in Signers(m) {
      var s :| s in m && s.signer == p;
      assert Slot(p, s.seqNo) in m;
    }
    if n: nat :| Slot(p, n) in m {
      assert Slot(p, n).signer in Signers(m);
    }
  }

  /** What an order says about its transaction: everything but the origin is determined by the item and the account seq. */
  lemma OrderOfItem(b: PoolState, fetch: Public -> Account, s: Slot)
    requires Sound(b) && Based(b.tables.bySigner, b.first, fetch) && s in b.tables.bySigner
    ensures var o := b.tables.bySigner[s].order;
            && o.hash in b.tables.byHash
            && var item := b.tables.byHash[o.hash];
               && item.tx.hash == o.hash && item.tx.signer == s.signer && item.tx.seqNo == s.seqNo
               && o.fee == item.tx.fee && o.memUsage == item.tx.size && o.feePerByte == item.tx.fee / item.tx.size
               && o.id == item.id && o.timelock == item.timelock && o.height + fetch(s.signer).seqNo == s.seqNo
  {
    assert s.signer in Signers(b.tables.bySigner);
    assert RowPlaced(b.tables.bySigner, b.first, b.next, s.signer);
  }

  /** What the answers mean: an accepted input that is still there is in the current queue exactly when its seq is below
      the recorded end of its signer's run. */
  lemma OutcomesInWords(b: PoolState, error: Option<Error>, s: Slot)
    requires AllPlaced(b.tables.bySigner, b.first, b.next)
    ensures var end, there := Get(b.next, s.signer, Get(b.first, s.signer, 0)), s in b.tables.bySigner;
            && (OutcomeOf(error, b.tables.bySigner, s) == InCurrent <==> error.None? && there && s.seqNo < end)
            && (OutcomeOf(error, b.tables.bySigner, s) == InFuture <==> error.None? && there && s.seqNo >= end)
            && (OutcomeOf(error, b.tables.bySigner, s) == Rejected(LimitReached) <== error.None? && !there)
            && (error.Some? ==> OutcomeOf(error, b.tables.bySigner, s) == Rejected(error.value))
  {
    assert RowPlaced(b.tables.bySigner, b.first, b.next, s.signer);
  }

  /** What the caller is told about an input. */
  datatype Outcome = InCurrent | InFuture | Rejected(error: Error)

  function OutcomeOf(error: Option<Error>, m: Table, s: Slot): Outcome {
    if error.Some? then Rejected(error.value)
    else if s in m then if m[s].tag == Current then InCurrent else InFuture
    else Rejected(LimitReached)
  }

  // ----- removals -----

  datatype RemoveCall = RemoveCall(hashes: set<H256>, now: Now, fetch: Public -> Account)

  ghost function RemoveEnds(a: PoolState, c: RemoveCall): (ends: map<Public, nat>)
    ensures ends.Keys == Signers(Purged(a.tables.bySigner, c.hashes)) && forall p :: p in ends ==> c.fetch(p).seqNo <= ends[p]
  {
    RemovedEnds(a.tables.bySigner, c.hashes, a.first, a.next, c.fetch, a.last, c.now)
  }

  ghost predicate IsRemoval(a: PoolState, c: RemoveCall, b: PoolState) {
    var m := a.tables.bySigner;
    && b.rules == a.rules && b.memoryLimit == a.memoryLimit && b.last == c.now
    && b.tables.bySigner == RemovedTable(m, c.hashes, a.first, a.next, c.fetch, a.last, c.now)
    && b.tables.byHash == ItemsOf(a.tables.byHash, b.tables.bySigner)
    && b.tables.locals == StillLocal(a.tables.locals, Purged(m, c.hashes), b.tables.bySigner)
    && b.tables.nextId == a.tables.nextId
    && SeqsSettled(Signers(Purged(m, c.hashes)), c.fetch, RemoveEnds(a, c), a.first, a.next, b.first, b.next, {})
  }

  lemma RemovedPlaces(a: PoolState, c: RemoveCall, first: map<Public, nat>, next: map<Public, nat>)
    requires SeqsSettled(Signers(Purged(a.tables.bySigner, c.hashes)), c.fetch, RemoveEnds(a, c), a.first, a.next, first, next, {})
    ensures AllPlaced(RemovedTable(a.tables.bySigner, c.hashes, a.first, a.next, c.fetch, a.last, c.now), first, next)
  {
    hide SeqsSettled, AllPlaced, SettledTable, Purged;
    SettledPlaced(Purged(a.tables.bySigner, c.hashes), c.fetch, RemoveEnds(a, c), {}, a.first, a.next, first, next);
  }

  lemma RemovalPlaces(a: PoolState, c: RemoveCall, b: PoolState)
    requires IsRemoval(a, c, b)
    ensures AllPlaced(b.tables.bySigner, b.first, b.next) && Based(b.tables.bySigner, b.first, c.fetch)
  {
    RemovalBases(a, c, b);
    hide SeqsSettled, AllPlaced, SettledTable, Purged, RemovedEnds, Based;
    RemovedPlaces(a, c, b.first, b.next);
  }

  lemma RemovalBases(a: PoolState, c: RemoveCall, b: PoolState)
    requires IsRemoval(a, c, b)
    ensures Based(b.tables.bySigner, b.first, c.fetch)
  {
    forall p | p in Signers(b.tables.bySigner) ensures Get(b.first, p, 0) == c.fetch(p).seqNo {
      var s :| s in b.tables.bySigner && s.signer == p;
      assert s in Purged(a.tables.bySigner, c.hashes);
      assert p in Signers(Purged(a.tables.bySigner, c.hashes)) && p !in {};
    }
  }

  /** Signers that were placed exactly: they still are after a removal, if and only if what they lose is smooth. */
  lemma RemovalExact(a: PoolState, c: RemoveCall, b: PoolState, p: Public)
    requires IsRemoval(a, c, b) && a.IsExact(p)
    ensures b.IsExact(p) <==> Smooth(a.tables.bySigner, c.hashes, a.first, a.next, c.fetch(p).seqNo, a.last, c.now, p)
  {
    hide SeqsSettled, Exact, Smooth, RemovedTable, RemovedEnds;
    RemovedExact(a.tables.bySigner, c.hashes, a.first, a.next, c.fetch, a.last, c.now, b.first, b.next);
  }

  /** Exactly the listed transactions and those older than their accounts are gone. */
  lemma RemovalKeeps(a: PoolState, c: RemoveCall, b: PoolState, h: H256)
    requires Sound(a) && IsRemoval(a, c, b)
    ensures h in b.tables.byHash <==>
              && h in a.tables.byHash && h !in c.hashes
              && c.fetch(a.tables.byHash[h].tx.signer).seqNo <= a.tables.byHash[h].tx.seqNo
    ensures h in b.tables.byHash ==> b.tables.byHash[h] == a.tables.byHash[h]
  {
    hide Describes, SeqsSettled, StillLocal, AllPlaced, RemovedEnd;
    if h in a.tables.byHash {
      assert a.tables.bySigner[SlotOf(a.tables.byHash[h])].order.hash == h;
    }
  }

  predicate IsStale(item: Item, account: Account, now: Now, maxPeriod: nat) {
    && item.origin != Local
    && (|| (item.Expiration().Some? && item.Expiration().value < now.timestamp)
        || now.block > item.block + maxPeriod
        || (now.block > item.block + maxPeriod / 8 && item.Cost() > account.balance))
  }

  /** What keeps a transaction from being stale: it is local; or it has not been in the pool for too long, its transfer has
      not expired, and once it has been there for a while, its account can still pay the fee and what it pays or wraps. */
  lemma StaleInWords(item: Item, account: Account, now: Now, maxPeriod: nat)
    ensures !IsStale(item, account, now, maxPeriod) <==>
              || item.origin == Local
              || (&& now.block <= item.block + maxPeriod
                  && (item.tx.action.TransferAsset? && item.tx.action.expiration.Some? ==>
                        now.timestamp <= item.tx.action.expiration.value)
                  && (now.block > item.block + maxPeriod / 8 ==>
                        && item.tx.fee <= account.balance
                        && (item.tx.action.Pay? ==> item.tx.fee + item.tx.action.quantity <= account.balance)
                        && (item.tx.action.WrapCCC? ==> item.tx.fee + item.tx.action.quantity <= account.balance)))
  {
  }

  /** The transactions that have been in the pool for too long, have expired or have become too expensive. */
  ghost function StaleHashes(byHash: map<H256, Item>, fetch: Public -> Account, now: Now, maxPeriod: nat): set<H256> {
    set h | h in byHash && IsStale(byHash[h], fetch(byHash[h].tx.signer), now, maxPeriod)
  }
}
