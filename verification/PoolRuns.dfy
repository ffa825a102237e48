/** Whole lives of a pool: additions within the limits, runs that leave a gap, and restarts. */
module PoolRuns {
  import opened Prelude
  import opened PoolTypes
  import opened Queues
  import opened PoolIndex
  import opened Placement
  import opened Admission
  import opened Eviction
  import opened Removal
  import opened PoolSteps
  import opened Recovery
  import opened MemPool

  // ----- sizes -----

  /** The size of all stored transactions. */
  ghost function SizeOf(items: map<H256, Item>): nat {
    if items == map[] then 0 else var h :| h in items; items[h].tx.size + SizeOf(items - {h})
  }

  lemma {:induction false} SizeSplit(items: map<H256, Item>, h: H256)
    requires h in items
    ensures SizeOf(items) == items[h].tx.size + SizeOf(items - {h})
    decreases |items|
  {
    var k :| k in items && SizeOf(items) == items[k].tx.size + SizeOf(items - {k});
    if k != h {
      SizeWithout(items, k);
      SizeWithout(items, h);
      SizeSplit(items - {k}, h);
      SizeSplit(items - {h}, k);
      assert items - {k} - {h} == items - {h} - {k};
    }
  }

  lemma {:induction false} SizePart(items: map<H256, Item>, items': map<H256, Item>)
    requires SubMap(items', items)
    ensures |items'| <= |items| && SizeOf(items') <= SizeOf(items)
    decreases |items'|
  {
    if items' != map[] {
      var h :| h in items';
      SizeSplit(items', h);
      SizeSplit(items, h);
      SizeWithout(items', h);
      SizeWithout(items, h);
      SizePart(items - {h}, items' - {h});
    }
  }

  lemma SizePut(items: map<H256, Item>, h: H256, item: Item)
    requires h !in items
    ensures |items[h := item]| == |items| + 1 && SizeOf(items[h := item]) == SizeOf(items) + item.tx.size
  {
    SizeSplit(items[h := item], h);
    SizeWithout(items[h := item], h);
    assert items[h := item] - {h} == items;
  }

  /** The orders belong to different items. */
  ghost predicate Backed(q: set<Order>, items: map<H256, Item>) {
    && (forall o :: o in q ==> o.hash in items && o.memUsage == items[o.hash].tx.size)
    && (forall o, o' :: o in q && o' in q && o.hash == o'.hash ==> o == o')
  }

  lemma {:induction false} BackedSize(q: set<Order>, items: map<H256, Item>)
    requires Backed(q, items)
    ensures |q| <= |items| && Mem(q) <= SizeOf(items)
    decreases |q|
  {
    if q != {} {
      var o :| o in q;
      MemRemove(q, o);
      SizeSplit(items, o.hash);
      SizeWithout(items, o.hash);
      BackedSize(q - {o}, items - {o.hash});
    }
  }

  // ----- additions within the limits -----

  function InputSize(inputs: seq<Input>): nat {
    if inputs == [] then 0 else InputSize(inputs[..|inputs| - 1]) + inputs[|inputs| - 1].tx.size
  }

  lemma {:induction false} ReplaySize(rules: Rules, t: Tables, inputs: seq<Input>, now: Now, fetch: Public -> Account)
    ensures var t' := Replay(rules, t, inputs, now, fetch);
            |t'.byHash| <= |t.byHash| + |inputs| && SizeOf(t'.byHash) <= SizeOf(t.byHash) + InputSize(inputs)
  {
    hide FirstError, Accepts, ForTransaction;
    if inputs != [] {
      var i := |inputs| - 1;
      ReplaySize(rules, t, inputs[..i], now, fetch);
      ImportedSize(rules, Replay(rules, t, inputs[..i], now, fetch), inputs[i], now, fetch);
    }
  }

  lemma ImportedSize(rules: Rules, t: Tables, input: Input, now: Now, fetch: Public -> Account)
    ensures var t' := Imported(rules, t, input, now, fetch);
            |t'.byHash| <= |t.byHash| + 1 && SizeOf(t'.byHash) <= SizeOf(t.byHash) + input.tx.size
  {
    hide FirstError, Accepts, ForTransaction, SizeOf;
    if Judge(rules, t, input, fetch).None? {
      AcceptedNotOld(rules, t, input, fetch);
      var s := SlotFor(input);
      var others := if s in t.bySigner then t.byHash - {t.bySigner[s].order.hash} else t.byHash;
      SizePart(t.byHash, others);
      SizePut(others, input.tx.hash, Stored(input, OriginFor(input, t.locals), now, t.nextId));
    }
  }

  /** The orders of the staged table belong to the items of the first pass. */
  lemma StagedBacked(a: PoolState, c: AddCall, tag: QueueTag)
    requires Linked(a.tables.byHash, a.tables.bySigner)
    ensures Backed(OrdersIn(Staged(a, c), tag), Replayed(a, c).byHash)
  {
    ReplayLinked(a.rules, a.tables, c.inputs, c.now, c.fetch);
    SettledBacked(Replayed(a, c).byHash, Replayed(a, c).bySigner, c.fetch, AddEnds(a, c), LocalSigners(c.inputs) - a.tables.locals, tag);
  }

  lemma SettledBacked(items: map<H256, Item>, m: Table, fetch: Public -> Account, ends: map<Public, nat>, locals: set<Public>,
                      tag: QueueTag)
    requires Linked(items, m) && Signers(m) <= ends.Keys
    ensures Backed(OrdersIn(SettledTable(m, fetch, ends, locals), tag), items)
  {
    var m' := SettledTable(m, fetch, ends, locals);
    forall s | s in m'
      ensures s in m && m'[s].order.hash == m[s].order.hash && m'[s].order.hash in items
      ensures SlotOf(items[m'[s].order.hash]) == s && m'[s].order.memUsage == items[m'[s].order.hash].tx.size
    {
    }
  }

  /** As long as everything fits, no limit takes anything away. */
  lemma AdditionFits(a: PoolState, c: AddCall, b: PoolState)
    requires Sound(a) && IsAddition(a, c, b)
    requires |a.tables.byHash| + |c.inputs| <= a.rules.countLimit
    requires SizeOf(a.tables.byHash) + InputSize(c.inputs) <= a.memoryLimit
    ensures |b.tables.byHash| <= |a.tables.byHash| + |c.inputs|
    ensures SizeOf(b.tables.byHash) <= SizeOf(a.tables.byHash) + InputSize(c.inputs)
    ensures forall p :: Spared(Staged(a, c), a.rules.countLimit, a.memoryLimit, p)
  {
    hide Replay, Staged, Linked, AllPlaced, SeqsSettled, SizeOf, Backed, OrdersIn, StillLocal, InputSize, EvictedTable;
    ReplaySize(a.rules, a.tables, c.inputs, c.now, c.fetch);
    SizePart(Replayed(a, c).byHash, b.tables.byHash);
    forall s | s in Staged(a, c) ensures !Evicted(Staged(a, c), s, a.rules.countLimit, a.memoryLimit) {
      var q := OrdersIn(Staged(a, c), Staged(a, c)[s].tag);
      StagedBacked(a, c, Staged(a, c)[s].tag);
      BackedSize(q, Replayed(a, c).byHash);
      SubsetSize(Externals(q), q);
      MemMonotone(q, q);
    }
  }

  function CountAll(calls: seq<AddCall>): nat {
    if calls == [] then 0 else CountAll(calls[..|calls| - 1]) + |calls[|calls| - 1].inputs|
  }

  function SizeAll(calls: seq<AddCall>): nat {
    if calls == [] then 0 else SizeAll(calls[..|calls| - 1]) + InputSize(calls[|calls| - 1].inputs)
  }

  lemma {:induction false} TotalsGrow(calls: seq<AddCall>, i: nat)
    requires i <= |calls|
    ensures CountAll(calls[..i]) <= CountAll(calls) && SizeAll(calls[..i]) <= SizeAll(calls)
    decreases |calls|
  {
    if i == |calls| {
      assert calls[..i] == calls;
    } else {
      TotalsGrow(calls[..|calls| - 1], i);
      assert calls[..|calls| - 1][..i] == calls[..i];
    }
  }

  lemma TotalsPush(calls: seq<AddCall>, i: nat)
    requires i < |calls|
    ensures CountAll(calls[..i + 1]) == CountAll(calls[..i]) + |calls[i].inputs|
    ensures SizeAll(calls[..i + 1]) == SizeAll(calls[..i]) + InputSize(calls[i].inputs)
  {
    assert calls[..i + 1][..i] == calls[..i];
  }

  /** The transactions of all the calls together are within the limits. */
  predicate Fits(calls: seq<AddCall>, limit: nat, memoryLimit: nat) { CountAll(calls) <= limit && SizeAll(calls) <= memoryLimit }

  /** After the first `i` calls nothing has been taken away by a limit. */
  ghost predicate OnTrack(calls: seq<AddCall>, i: nat, b: PoolState)
    requires i <= |calls|
  {
    && |b.tables.byHash| <= CountAll(calls[..i]) && SizeOf(b.tables.byHash) <= SizeAll(calls[..i])
    && (forall p :: b.IsExact(p))
    && (i > 0 ==> AllCurrentAreRuns(b.tables.bySigner, calls[i - 1].fetch, calls[i - 1].now))
  }

  /** The states are those after the calls, one after the other, from an empty pool on. */
  ghost predicate IsRunOf(states: seq<PoolState>, calls: seq<AddCall>, limit: nat, memoryLimit: nat, feeBumpShift: nat) {
    && 0 < |states| <= |calls| + 1
    && states[0] == PoolState(Rules(0, limit, feeBumpShift), memoryLimit, Tables(map[], map[], {}, 0), map[], map[], Now(0, 0))
    && forall i :: 0 <= i < |states| - 1 ==> !PanicsOn(states[i], calls[i]) && IsAddition(states[i], calls[i], states[i + 1])
  }

  /** Any run of additions to an empty pool, with time and accounts moving at will. It takes one step per call, up to the
      first that panics, which only a batch with two transactions for one slot does. If all transactions together are within
      the limits, every signer's current transactions are its maximal ready run. */
  method AddAll(calls: seq<AddCall>, limit: nat, memoryLimit: nat, feeBumpShift: nat)
      returns (panicked: bool, pool: MemPool, ghost states: seq<PoolState>)
    ensures fresh(pool) && IsRunOf(states, calls, limit, memoryLimit, feeBumpShift)
    ensures if panicked then |states| <= |calls| && PanicsOn(states[|states| - 1], calls[|states| - 1])
            else |states| == |calls| + 1 && pool.Valid() && pool.State() == states[|calls|]
    ensures (forall i :: 0 <= i < |calls| ==> Consistent(calls[i].inputs)) ==> !panicked
    ensures !panicked && calls != [] && Fits(calls, limit, memoryLimit) ==>
              AllCurrentAreRuns(pool.bySigner, calls[|calls| - 1].fetch, calls[|calls| - 1].now)
  {
    hide OnTrack, Fits, Sound, IsAddition, IsEviction, AllCurrentAreRuns, Synced, AllPlaced, IdsBelow, Linked, Based, Consistent,
         Panics, ToDrop, OrdersIn, Externals;
    pool := new MemPool(limit, memoryLimit, feeBumpShift, map[]);
    panicked, states := false, [pool.State()];
    EmptyOnTrack(calls, pool.State());
    for i := 0 to |calls|
      invariant fresh(pool) && pool.Valid() && pool.Policy() == Rules(0, limit, feeBumpShift) && pool.memoryLimit == memoryLimit
      invariant IsRunOf(states, calls, limit, memoryLimit, feeBumpShift) && |states| == i + 1 && states[i] == pool.State()
      invariant Fits(calls, limit, memoryLimit) ==> OnTrack(calls, i, pool.State())
    {
      ghost var a, c := pool.State(), calls[i];
      PoolSound(pool);
      PanicsOnlyOnClash(a, c);
      var outcomes;
      panicked, outcomes := pool.Add(calls[i].inputs, calls[i].now, calls[i].fetch);
      if panicked {
        return;
      }
      AddStep(calls, i, a, pool.State());
      states := states + [pool.State()];
    }
    if Fits(calls, limit, memoryLimit) {
      TrackEnds(calls, pool.State());
    }
  }

  lemma EmptyOnTrack(calls: seq<AddCall>, a: PoolState)
    requires a.tables == Tables(map[], map[], {}, 0) && a.first == map[] && a.next == map[]
    ensures OnTrack(calls, 0, a)
  {
  }

  lemma TrackEnds(calls: seq<AddCall>, b: PoolState)
    requires OnTrack(calls, |calls|, b)
    ensures calls != [] ==> AllCurrentAreRuns(b.tables.bySigner, calls[|calls| - 1].fetch, calls[|calls| - 1].now)
  {
  }

  lemma PoolSound(pool: MemPool)
    requires pool.Valid()
    ensures Sound(pool.State())
  {
    hide AllPlaced, Linked;
    LinkedIx(pool.Ix());
  }

  lemma PanicsOnlyOnClash(a: PoolState, c: AddCall)
    requires Sound(a)
    ensures Consistent(c.inputs) ==> !PanicsOn(a, c)
  {
    hide Linked, AllPlaced, Consistent, Panics;
    NothingNew(a.tables.bySigner, a.first, a.next);
    if Consistent(c.inputs) {
      ConsistentNeverPanics(a.rules, a.tables, c.inputs, c.now, c.fetch);
    }
  }

  lemma AddStep(calls: seq<AddCall>, i: nat, a: PoolState, b: PoolState)
    requires i < |calls| && Sound(a) && IsAddition(a, calls[i], b)
    ensures b.rules == a.rules && b.memoryLimit == a.memoryLimit
    ensures OnTrack(calls, i, a) && Fits(calls, a.rules.countLimit, a.memoryLimit) ==> OnTrack(calls, i + 1, b)
  {
    hide Sound, CountAll, SizeAll, SizeOf, PoolState.IsExact, AllCurrentAreRuns, Staged, InputSize, EvictedTable, ItemsOf, SeqsSettled;
    if OnTrack(calls, i, a) && Fits(calls, a.rules.countLimit, a.memoryLimit) {
      TotalsGrow(calls, i + 1);
      TotalsPush(calls, i);
      AdditionFits(a, calls[i], b);
      FittingExact(a, calls[i], b);
    }
  }

  lemma FittingExact(a: PoolState, c: AddCall, b: PoolState)
    requires IsAddition(a, c, b) && forall p :: a.IsExact(p) && Spared(Staged(a, c), a.rules.countLimit, a.memoryLimit, p)
    ensures (forall p :: b.IsExact(p)) && AllCurrentAreRuns(b.tables.bySigner, c.fetch, c.now)
  {
    assert b.last == c.now;
    hide IsAddition, PoolState.IsExact, CurrentIsRun, AllPlaced, Based, Spared, Staged;
    AdditionPlaces(a, c, b);
    forall p ensures b.IsExact(p) && CurrentIsRun(b.tables.bySigner, c.fetch, c.now, p) {
      AdditionExact(a, c, b, p);
      ExactIsRun(b, c.fetch, p);
    }
  }

  // ----- additions and removals in any order -----

  datatype Call = Adds(add: AddCall) | Removes(remove: RemoveCall)

  ghost predicate IsStep(a: PoolState, c: Call, b: PoolState) {
    match c
    case Adds(add) => IsAddition(a, add, b)
    case Removes(remove) => IsRemoval(a, remove, b)
  }

  /** The call takes no current transaction of the signer away for a limit, and leaves no gap before the lowest
      transaction that the signer loses. */
  ghost predicate Harmless(a: PoolState, c: Call, p: Public) {
    match c
    case Adds(add) => Spared(Staged(a, add), a.rules.countLimit, a.memoryLimit, p)
    case Removes(remove) =>
      Smooth(a.tables.bySigner, remove.hashes, a.first, a.next, remove.fetch(p).seqNo, a.last, remove.now, p)
  }

  ghost predicate IsLife(states: seq<PoolState>, calls: seq<Call>) {
    |states| == |calls| + 1 && forall i :: 0 <= i < |calls| ==> IsStep(states[i], calls[i], states[i + 1])
  }

  lemma StepExact(a: PoolState, c: Call, b: PoolState, p: Public)
    requires IsStep(a, c, b) && a.IsExact(p)
    ensures b.IsExact(p) <==> Harmless(a, c, p)
  {
    hide IsAddition, IsRemoval, Spared, Smooth, PoolState.IsExact;
    match c
    case Adds(add) => AdditionExact(a, add, b, p);
    case Removes(remove) => RemovalExact(a, remove, b, p);
  }

  /** Over a whole life of a pool, a signer's current transactions are its maximal ready run after every call, if and
      only if every call is harmless to it. */
  lemma {:induction false} LifeExact(states: seq<PoolState>, calls: seq<Call>, n: nat, p: Public)
    requires IsLife(states, calls) && n <= |calls| && states[0].IsExact(p)
    ensures (forall i :: 0 <= i <= n ==> states[i].IsExact(p)) <==> forall i :: 0 <= i < n ==> Harmless(states[i], calls[i], p)
  {
    hide IsStep, Harmless, PoolState.IsExact;
    if n > 0 {
      LifeExact(states, calls, n - 1, p);
      if states[n - 1].IsExact(p) {
        assert IsStep(states[n - 1], calls[n - 1], states[n - 1 + 1]);
        StepExact(states[n - 1], calls[n - 1], states[n], p);
      }
      if forall i :: 0 <= i <= n ==> states[i].IsExact(p) {
        assert states[n].IsExact(p) && states[n - 1].IsExact(p);
      }
    }
  }

  // ----- restarts -----

  lemma SameSlots(items: map<H256, Item>, m: Table, m': Table)
    requires Linked(items, m) && Linked(items, m')
    ensures m.Keys == m'.Keys && forall s :: s in m ==> m[s].order.hash == m'[s].order.hash
  {
    hide Describes;
  }

  /** What the items, the account seqs and the time determine. */
  lemma Determined(items: map<H256, Item>, m: Table, m': Table, fetch: Public -> Account, now: Now)
    requires Linked(items, m) && FromItems(m, items, fetch) && AllCurrentAreRuns(m, fetch, now)
    requires Linked(items, m') && FromItems(m', items, fetch) && AllCurrentAreRuns(m', fetch, now)
    requires forall s :: s in m ==> m[s].tag != New
    requires forall s :: s in m' ==> m'[s].tag != New
    ensures m == m'
  {
    hide Linked, AllCurrentAreRuns;
    SameSlots(items, m, m');
    forall s | s in m ensures m'[s] == m[s] {
      assert m'[s].order == m[s].order;
      SameTag(m, m', fetch, now, s);
    }
  }

  lemma SameTag(m: Table, m': Table, fetch: Public -> Account, now: Now, s: Slot)
    requires m.Keys == m'.Keys && (forall k :: k in m ==> m[k].order == m'[k].order) && s in m
    requires AllCurrentAreRuns(m, fetch, now) && AllCurrentAreRuns(m', fetch, now)
    ensures m[s].tag == Current <==> m'[s].tag == Current
  {
    var p := s.signer;
    assert CurrentIsRun(m, fetch, now, p) && CurrentIsRun(m', fetch, now, p);
    var end :| CurrentUpTo(m, p, fetch(p).seqNo, end, now);
    var end' :| CurrentUpTo(m', p, fetch(p).seqNo, end', now);
    assert end == end';
    assert s == Slot(p, s.seqNo);
  }

  /** The queues know every transaction's origin as its item does. */
  ghost predicate OriginsAgree(items: map<H256, Item>, m: Table) {
    forall s :: s in m ==> m[s].order.hash in items && m[s].order.origin == items[m[s].order.hash].origin
  }

  /** Where heights are counted from the account seqs, only the origin of an order can differ from what its item says. */
  lemma OriginsDecide(items: map<H256, Item>, m: Table, first: map<Public, nat>, next: map<Public, nat>, fetch: Public -> Account)
    requires Linked(items, m) && AllPlaced(m, first, next) && Based(m, first, fetch)
    ensures FromItems(m, items, fetch) <==> OriginsAgree(items, m)
  {
    forall s | s in m
      ensures m[s].order.hash in items && SlotOf(items[m[s].order.hash]) == s && fetch(s.signer).seqNo <= s.seqNo
      ensures m[s].order == ForTransaction(items[m[s].order.hash], fetch(s.signer).seqNo).(origin := m[s].order.origin)
    {
      assert s.signer in Signers(m) && RowPlaced(m, first, next, s.signer);
    }
  }

  /** A pool that is opened over the backup of another overflows if and only if an account has moved past one of the
      transactions. Otherwise it holds the same transactions, in the same places if and only if the other one had every
      order as its item says, and the maximal ready runs current. For a pool that is placed exactly at that time for those
      accounts, it is the origins that decide. */
  method Restart(pool: MemPool, fetch: Public -> Account, now: Now) returns (overflowed: bool, again: MemPool)
    requires pool.Valid()
    ensures fresh(again) && (overflowed <==> HasOld(pool.byHash, fetch))
    ensures !overflowed ==> again.Valid() && again.byHash == pool.byHash && again.Last() == now
    ensures !overflowed ==> FromItems(again.bySigner, again.byHash, fetch) && AllCurrentAreRuns(again.bySigner, fetch, now)
    ensures !overflowed ==>
              (again.bySigner == pool.bySigner
               <==> FromItems(pool.bySigner, pool.byHash, fetch) && AllCurrentAreRuns(pool.bySigner, fetch, now))
    ensures !overflowed && Based(pool.bySigner, pool.firstSeqs, fetch) && pool.Last() == now && (forall p :: pool.State().IsExact(p)) ==>
              (again.bySigner == pool.bySigner <==> OriginsAgree(pool.byHash, pool.bySigner))
  {
    hide OriginsAgree, Exact, Synced, AllPlaced, Based, IdsBelow, IsBackup, FromItems, AllCurrentAreRuns, Linked, HasOld;
    again := new MemPool(pool.countLimit, pool.memoryLimit, pool.feeBumpShift, pool.db);
    PoolIsBackup(pool.Ix());
    overflowed := again.RecoverFromDb(fetch, now);
    if overflowed {
      return;
    }
    LinkedIx(pool.Ix());
    LinkedIx(again.Ix());
    NothingNew(pool.bySigner, pool.firstSeqs, pool.nextSeqs);
    NothingNew(again.bySigner, again.firstSeqs, again.nextSeqs);
    if Based(pool.bySigner, pool.firstSeqs, fetch) && pool.Last() == now && (forall p :: pool.State().IsExact(p)) {
      AllExactAreRuns(pool.State(), fetch);
      OriginsDecide(pool.byHash, pool.bySigner, pool.firstSeqs, pool.nextSeqs, fetch);
    }
    if FromItems(pool.bySigner, pool.byHash, fetch) && AllCurrentAreRuns(pool.bySigner, fetch, now) {
      Determined(pool.byHash, pool.bySigner, again.bySigner, fetch, now);
    }
  }
}
