/** The redundant indexes of the pool and the three elementary updates that keep them in step
    (core/src/miner/mem_pool.rs). */
module PoolIndex {
  import opened Prelude
  import opened PoolTypes
  import opened Queues

  datatype Index = Index(byHash: map<H256, Item>, bySigner: map<Slot, Tagged>, current: CurrentQueue, future: FutureQueue)

  /** The order speaks of the item. Its origin may have moved on, and its height depends on the account. */
  predicate Describes(o: Order, item: Item) {
    && o.hash == item.tx.hash && o.id == item.id && o.timelock == item.timelock
    && o.fee == item.tx.fee && o.memUsage == item.tx.size && o.feePerByte == item.tx.fee / item.tx.size
  }

  /** The two lookup tables are inverse to each other. */
  ghost predicate Linked(byHash: map<H256, Item>, bySigner: map<Slot, Tagged>) {
    && (forall h :: h in byHash ==>
          && byHash[h].tx.hash == h
          && SlotOf(byHash[h]) in bySigner && bySigner[SlotOf(byHash[h])].order.hash == h)
    && (forall s :: s in bySigner ==>
          && bySigner[s].order.hash in byHash
          && SlotOf(byHash[bySigner[s].order.hash]) == s
          && Describes(bySigner[s].order, byHash[bySigner[s].order.hash]))
  }

  ghost predicate DistinctIds(byHash: map<H256, Item>) {
    forall h, k :: h in byHash && k in byHash && byHash[h].id == byHash[k].id ==> h == k
  }

  /** A queue holds exactly the orders that carry its tag. */
  ghost predicate Holds(q: set<Order>, tag: QueueTag, byHash: map<H256, Item>, bySigner: map<Slot, Tagged>) {
    && (forall s :: s in bySigner && bySigner[s].tag == tag ==> bySigner[s].order in q)
    && (forall o :: o in q ==>
          o.hash in byHash && SlotOf(byHash[o.hash]) in bySigner && bySigner[SlotOf(byHash[o.hash])] == Tagged(o, tag))
  }

  ghost predicate Synced(ix: Index) {
    && Linked(ix.byHash, ix.bySigner) && DistinctIds(ix.byHash)
    && Holds(ix.current.base.queue, Current, ix.byHash, ix.bySigner)
    && Holds(ix.future.queue, Future, ix.byHash, ix.bySigner)
    && ix.current.Ok() && ix.future.Ok()
  }

  predicate CanDequeue(ix: Index, t: Tagged) {
    match t.tag
    case New => true
    case Future => HasEqual(ix.future.queue, t.order) &&
                   (t.order.origin.IsLocalOrRetracted() || (t.order.memUsage <= ix.future.memUsage && 0 < ix.future.count))
    case Current => HasEqual(ix.current.base.queue, t.order) &&
                    (t.order.origin.IsLocalOrRetracted() || (t.order.memUsage <= ix.current.base.memUsage && 0 < ix.current.base.count)) &&
                    t.order.fee in ix.current.feeCounter && ix.current.feeCounter[t.order.fee] > 0
  }

  function Dequeued(ix: Index, t: Tagged): Index
    requires CanDequeue(ix, t)
  {
    match t.tag
    case New => ix
    case Future => ix.(future := ix.future.Remove(t.order))
    case Current => ix.(current := ix.current.Remove(t.order))
  }

  function Enqueued(ix: Index, t: Tagged): Index {
    match t.tag
    case New => ix
    case Future => ix.(future := ix.future.Insert(t.order))
    case Current => ix.(current := ix.current.Insert(t.order))
  }

  lemma Relinked(byHash: map<H256, Item>, bySigner: map<Slot, Tagged>, s: Slot, o: Order, tag: QueueTag)
    requires Linked(byHash, bySigner) && s in bySigner && Describes(o, byHash[bySigner[s].order.hash])
    ensures Linked(byHash, bySigner[s := Tagged(o, tag)])
  {
  }

  lemma HoldsWithout(byHash: map<H256, Item>, bySigner: map<Slot, Tagged>, s: Slot, q: set<Order>, tag: QueueTag)
    requires Linked(byHash, bySigner) && s in bySigner && bySigner[s].tag == tag && tag != New
    requires Holds(q, tag, byHash, bySigner)
    ensures Holds(q - {bySigner[s].order}, tag, byHash, bySigner[s := Tagged(bySigner[s].order, New)])
  {
  }

  lemma HoldsWith(byHash: map<H256, Item>, bySigner: map<Slot, Tagged>, s: Slot, o: Order, q: set<Order>, tag: QueueTag)
    requires Linked(byHash, bySigner) && s in bySigner && bySigner[s].tag == New && tag != New
    requires Describes(o, byHash[bySigner[s].order.hash])
    requires Holds(q, tag, byHash, bySigner)
    ensures Holds(q + {o}, tag, byHash, bySigner[s := Tagged(o, tag)])
  {
  }

  lemma HoldsOther(byHash: map<H256, Item>, bySigner: map<Slot, Tagged>, s: Slot, t: Tagged, q: set<Order>, tag: QueueTag)
    requires Linked(byHash, bySigner) && s in bySigner && bySigner[s].tag != tag && t.tag != tag
    requires Holds(q, tag, byHash, bySigner)
    ensures Holds(q, tag, byHash, bySigner[s := t])
  {
  }

  /** No assertion of the queues fires for an order of the pool, and taking it out leaves the rest in step. */
  lemma DequeueSlot(ix: Index, s: Slot)
    requires Synced(ix) && s in ix.bySigner
    ensures CanDequeue(ix, ix.bySigner[s])
    ensures var t := ix.bySigner[s];
            Synced(Dequeued(ix, t).(bySigner := ix.bySigner[s := Tagged(t.order, New)]))
  {
    InQueue(ix, s);
    hide Linked, Holds, DistinctIds, Describes, CurrentQueue.Ok, FutureQueue.Ok, CurrentQueue.Remove, FutureQueue.Remove, HasEqual;
    var t := ix.bySigner[s];
    Relinked(ix.byHash, ix.bySigner, s, t.order, New);
    match t.tag
    case New =>
      assert ix.bySigner[s := t] == ix.bySigner;
    case Future =>
      FutureRemove(ix.future, t.order);
      HoldsWithout(ix.byHash, ix.bySigner, s, ix.future.queue, Future);
      HoldsOther(ix.byHash, ix.bySigner, s, Tagged(t.order, New), ix.current.base.queue, Current);
    case Current =>
      CurrentRemove(ix.current, t.order);
      HoldsWithout(ix.byHash, ix.bySigner, s, ix.current.base.queue, Current);
      HoldsOther(ix.byHash, ix.bySigner, s, Tagged(t.order, New), ix.future.queue, Future);
  }

  lemma InQueue(ix: Index, s: Slot)
    requires Synced(ix) && s in ix.bySigner
    ensures ix.bySigner[s].order.hash in ix.byHash && Describes(ix.bySigner[s].order, ix.byHash[ix.bySigner[s].order.hash])
    ensures ix.bySigner[s].tag == Current ==> ix.bySigner[s].order in ix.current.base.queue
    ensures ix.bySigner[s].tag == Future ==> ix.bySigner[s].order in ix.future.queue
  {
  }

  /** An order whose id is its own compares equal to nothing in a queue that does not hold it. */
  lemma NoEqual(ix: Index, s: Slot, o: Order, q: set<Order>, tag: QueueTag)
    requires Linked(ix.byHash, ix.bySigner) && DistinctIds(ix.byHash) && Holds(q, tag, ix.byHash, ix.bySigner)
    requires s in ix.bySigner && ix.bySigner[s].tag != tag && Describes(o, ix.byHash[ix.bySigner[s].order.hash])
    ensures !HasEqual(q, o)
  {
    forall e | e in q ensures Cmp(e, o) != Equal {
      CmpAntisymmetric(e, o);
    }
  }

  lemma EnqueueSlot(ix: Index, s: Slot, o: Order, tag: QueueTag)
    requires Synced(ix) && s in ix.bySigner && ix.bySigner[s].tag == New && tag != New
    requires ix.bySigner[s].order.hash in ix.byHash && Describes(o, ix.byHash[ix.bySigner[s].order.hash])
    ensures Synced(Enqueued(ix, Tagged(o, tag)).(bySigner := ix.bySigner[s := Tagged(o, tag)]))
  {
    hide Linked, Holds, DistinctIds, Describes, CurrentQueue.Ok, FutureQueue.Ok, CurrentQueue.Insert, FutureQueue.Insert, HasEqual;
    Relinked(ix.byHash, ix.bySigner, s, o, tag);
    if tag == Current {
      NoEqual(ix, s, o, ix.current.base.queue, Current);
      CurrentInsert(ix.current, o);
      HoldsWith(ix.byHash, ix.bySigner, s, o, ix.current.base.queue, Current);
      HoldsOther(ix.byHash, ix.bySigner, s, Tagged(o, tag), ix.future.queue, Future);
    } else {
      NoEqual(ix, s, o, ix.future.queue, Future);
      FutureInsert(ix.future, o);
      HoldsWith(ix.byHash, ix.bySigner, s, o, ix.future.queue, Future);
      HoldsOther(ix.byHash, ix.bySigner, s, Tagged(o, tag), ix.current.base.queue, Current);
    }
  }

  // ----- the elementary updates -----

  /** A new transaction enters the tables and no queue. */
  function Added(ix: Index, item: Item, o: Order): Index {
    ix.(byHash := ix.byHash[item.tx.hash := item], bySigner := ix.bySigner[SlotOf(item) := Tagged(o, New)])
  }

  lemma AddedSynced(ix: Index, item: Item, o: Order)
    requires Synced(ix) && item.tx.hash !in ix.byHash && SlotOf(item) !in ix.bySigner
    requires Describes(o, item) && forall h :: h in ix.byHash ==> ix.byHash[h].id != item.id
    ensures Synced(Added(ix, item, o))
  {
    hide CurrentQueue.Ok, FutureQueue.Ok;
    var byHash', bySigner' := ix.byHash[item.tx.hash := item], ix.bySigner[SlotOf(item) := Tagged(o, New)];
    HoldsAdded(ix.byHash, ix.bySigner, item, o, ix.current.base.queue, Current);
    HoldsAdded(ix.byHash, ix.bySigner, item, o, ix.future.queue, Future);
    LinkedAdded(ix.byHash, ix.bySigner, item, o);
  }

  lemma HoldsAdded(byHash: map<H256, Item>, bySigner: map<Slot, Tagged>, item: Item, o: Order, q: set<Order>, tag: QueueTag)
    requires item.tx.hash !in byHash && SlotOf(item) !in bySigner && tag != New && Holds(q, tag, byHash, bySigner)
    ensures Holds(q, tag, byHash[item.tx.hash := item], bySigner[SlotOf(item) := Tagged(o, New)])
  {
  }

  lemma LinkedAdded(byHash: map<H256, Item>, bySigner: map<Slot, Tagged>, item: Item, o: Order)
    requires item.tx.hash !in byHash && SlotOf(item) !in bySigner && Describes(o, item) && Linked(byHash, bySigner)
    ensures Linked(byHash[item.tx.hash := item], bySigner[SlotOf(item) := Tagged(o, New)])
  {
  }

  /** A transaction moves to another queue or another position. */
  function Requeued(ix: Index, s: Slot, o: Order, tag: QueueTag): Index
    requires s in ix.bySigner && CanDequeue(ix, ix.bySigner[s])
  {
    Enqueued(Dequeued(ix, ix.bySigner[s]), Tagged(o, tag)).(bySigner := ix.bySigner[s := Tagged(o, tag)])
  }

  lemma RequeuedSynced(ix: Index, s: Slot, o: Order, tag: QueueTag)
    requires Synced(ix) && s in ix.bySigner && tag != New
    requires ix.bySigner[s].order.hash in ix.byHash && Describes(o, ix.byHash[ix.bySigner[s].order.hash])
    ensures CanDequeue(ix, ix.bySigner[s])
    ensures Synced(Requeued(ix, s, o, tag))
  {
    hide Synced;
    var t := ix.bySigner[s];
    DequeueSlot(ix, s);
    var mid := Dequeued(ix, t).(bySigner := ix.bySigner[s := Tagged(t.order, New)]);
    EnqueueSlot(mid, s, o, tag);
    assert mid.bySigner[s := Tagged(o, tag)] == ix.bySigner[s := Tagged(o, tag)];
  }

  /** A transaction leaves the pool. */
  function Dropped(ix: Index, s: Slot): Index
    requires s in ix.bySigner && CanDequeue(ix, ix.bySigner[s])
  {
    Dequeued(ix, ix.bySigner[s]).(byHash := ix.byHash - {ix.bySigner[s].order.hash}, bySigner := ix.bySigner - {s})
  }

  lemma DroppedSynced(ix: Index, s: Slot)
    requires Synced(ix) && s in ix.bySigner
    ensures CanDequeue(ix, ix.bySigner[s])
    ensures Synced(Dropped(ix, s))
  {
    hide Synced;
    var t := ix.bySigner[s];
    DequeueSlot(ix, s);
    var mid := Dequeued(ix, t).(bySigner := ix.bySigner[s := Tagged(t.order, New)]);
    DropNew(mid, s);
    assert mid.bySigner - {s} == ix.bySigner - {s};
  }

  lemma DropNew(ix: Index, s: Slot)
    requires Synced(ix) && s in ix.bySigner && ix.bySigner[s].tag == New
    ensures Synced(ix.(byHash := ix.byHash - {ix.bySigner[s].order.hash}, bySigner := ix.bySigner - {s}))
  {
    hide CurrentQueue.Ok, FutureQueue.Ok;
  }

  // ----- taking several orders out of one queue -----

  function QueueOf(ix: Index, tag: QueueTag): set<Order> {
    match tag case Current => ix.current.base.queue case Future => ix.future.queue case New => {}
  }

  ghost function WithoutOrders(m: map<Slot, Tagged>, tag: QueueTag, orders: set<Order>): map<Slot, Tagged> {
    map s | s in m && !(m[s].tag == tag && m[s].order in orders) :: m[s]
  }

  /** Where a queued order is found in the tables. */
  lemma FindOrder(ix: Index, o: Order, tag: QueueTag)
    requires Synced(ix) && o in QueueOf(ix, tag)
    ensures o.hash in ix.byHash && SlotOf(ix.byHash[o.hash]) in ix.bySigner
    ensures ix.bySigner[SlotOf(ix.byHash[o.hash])] == Tagged(o, tag)
  {
  }

  /** The tables know where every order is queued. */
  lemma SlotQueued(ix: Index, s: Slot)
    requires Synced(ix) && s in ix.bySigner
    ensures ix.bySigner[s].tag != New ==> ix.bySigner[s].order in QueueOf(ix, ix.bySigner[s].tag)
    ensures ix.bySigner[s].order.hash in ix.byHash && SlotOf(ix.byHash[ix.bySigner[s].order.hash]) == s
  {
  }

  lemma TakeOne(m: map<Slot, Tagged>, tag: QueueTag, orders: set<Order>, s: Slot, byHash: map<H256, Item>)
    requires Linked(byHash, m) && s in m && m[s].tag == tag && m[s].order !in orders
    ensures s in WithoutOrders(m, tag, orders) && WithoutOrders(m, tag, orders)[s] == m[s]
    ensures WithoutOrders(m, tag, orders + {m[s].order}) == WithoutOrders(m, tag, orders) - {s}
  {
    forall s' | s' in m && m[s'].order == m[s].order ensures s' == s {
      assert SlotOf(byHash[m[s'].order.hash]) == s';
    }
  }

  lemma TakeNone(m: map<Slot, Tagged>, tag: QueueTag)
    ensures WithoutOrders(m, tag, {}) == m
  {
  }

  lemma SyncedParts(ix: Index)
    requires Synced(ix)
    ensures Linked(ix.byHash, ix.bySigner) && CountsFees(ix.current.feeCounter, ix.current.base.queue)
    ensures Separated(ix.current.base.queue) && Separated(ix.future.queue)
    ensures ix.current.base.memUsage == ExternalMem(ix.current.base.queue) && ix.current.base.count == |Externals(ix.current.base.queue)|
    ensures ix.future.memUsage == ExternalMem(ix.future.queue) && ix.future.count == |Externals(ix.future.queue)|
  {
  }

  // ----- counting -----

  lemma {:induction false} LinkedSize(byHash: map<H256, Item>, bySigner: map<Slot, Tagged>)
    requires Linked(byHash, bySigner)
    ensures |bySigner| == |byHash|
    decreases |bySigner|
  {
    if bySigner == map[] {
      assert byHash == map[];
    } else {
      var s :| s in bySigner;
      Unlinked(byHash, bySigner, s);
      LinkedSize(byHash - {bySigner[s].order.hash}, bySigner - {s});
      SizeWithout(byHash, bySigner[s].order.hash);
      SizeWithout(bySigner, s);
    }
  }

  lemma SizeWithout<K, V>(m: map<K, V>, k: K)
    requires k in m
    ensures |m - {k}| == |m| - 1
  {
    assert (m - {k}).Keys == m.Keys - {k};
  }

  lemma Unlinked(byHash: map<H256, Item>, bySigner: map<Slot, Tagged>, s: Slot)
    requires Linked(byHash, bySigner) && s in bySigner
    ensures Linked(byHash - {bySigner[s].order.hash}, bySigner - {s})
  {
    hide Describes;
  }

  ghost function SlotsIn(m: map<Slot, Tagged>, tag: QueueTag): set<Slot> { set s | s in m && m[s].tag == tag }

  ghost function OrdersIn(m: map<Slot, Tagged>, tag: QueueTag): set<Order> { set s | s in m && m[s].tag == tag :: m[s].order }

  /** A queue is what the table says. */
  lemma QueueIsOrders(ix: Index, tag: QueueTag)
    requires Synced(ix) && tag != New
    ensures QueueOf(ix, tag) == OrdersIn(ix.bySigner, tag)
  {
    hide Synced, QueueOf;
    forall o ensures o in QueueOf(ix, tag) <==> o in OrdersIn(ix.bySigner, tag) {
      if o in QueueOf(ix, tag) {
        FindOrder(ix, o, tag);
      }
      if o in OrdersIn(ix.bySigner, tag) {
        var s :| s in ix.bySigner && ix.bySigner[s] == Tagged(o, tag);
        SlotQueued(ix, s);
      }
    }
  }

  /** Different slots hold different orders. */
  ghost predicate Injective(m: map<Slot, Tagged>, slots: set<Slot>) {
    (forall s :: s in slots ==> s in m) && forall a, b :: a in slots && b in slots && m[a].order == m[b].order ==> a == b
  }

  lemma {:induction false} ImageSize(m: map<Slot, Tagged>, slots: set<Slot>)
    requires Injective(m, slots)
    ensures |set s | s in slots :: m[s].order| == |slots|
    decreases |slots|
  {
    if slots != {} {
      var a :| a in slots;
      ImageSize(m, slots - {a});
      assert (set s | s in slots :: m[s].order) == (set s | s in slots - {a} :: m[s].order) + {m[a].order};
    }
  }

  lemma QueueSize(ix: Index, tag: QueueTag)
    requires Synced(ix) && tag != New
    ensures |QueueOf(ix, tag)| == |SlotsIn(ix.bySigner, tag)|
  {
    hide Synced, QueueOf;
    QueueIsOrders(ix, tag);
    var slots := SlotsIn(ix.bySigner, tag);
    forall a, b | a in slots && b in slots && ix.bySigner[a].order == ix.bySigner[b].order ensures a == b {
      SlotQueued(ix, a);
      SlotQueued(ix, b);
    }
    ImageSize(ix.bySigner, slots);
    assert OrdersIn(ix.bySigner, tag) == set s | s in slots :: ix.bySigner[s].order;
  }

  /** With no transaction outside the queues, the sizes of the indexes agree. */
  lemma SizesAgree(ix: Index)
    requires Synced(ix) && forall s :: s in ix.bySigner ==> ix.bySigner[s].tag != New
    ensures |ix.current.base.queue| + |ix.future.queue| == |ix.byHash|
    ensures |ix.bySigner| == |ix.byHash|
    ensures SumOf(ix.current.feeCounter) == |ix.current.base.queue|
  {
    hide Synced, Linked, CountsFees, SlotsIn, Separated, SumOf;
    SyncedParts(ix);
    FeeSum(ix.current.feeCounter, ix.current.base.queue);
    QueueSize(ix, Current);
    QueueSize(ix, Future);
    LinkedSize(ix.byHash, ix.bySigner);
    SlotsSplit(ix.bySigner);
  }

  lemma SlotsSplit(m: map<Slot, Tagged>)
    requires forall s :: s in m ==> m[s].tag != New
    ensures |SlotsIn(m, Current)| + |SlotsIn(m, Future)| == |m|
  {
    var cs, fs := SlotsIn(m, Current), SlotsIn(m, Future);
    assert m.Keys == cs + fs && cs !! fs;
  }
}
