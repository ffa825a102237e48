/** The two priority queues with their running totals (core/src/miner/mem_pool_types.rs). */
module Queues {
  import opened PoolTypes

  /** An ordered set never holds two elements that compare equal. */
  ghost predicate Separated(q: set<Order>) {
    forall a, b :: a in q && b in q && a != b ==> Cmp(a, b) != Equal
  }

  predicate HasEqual(q: set<Order>, o: Order) { exists e :: e in q && Cmp(e, o) == Equal }

  function SetInsert(q: set<Order>, o: Order): set<Order> { if HasEqual(q, o) then q else q + {o} }

  function SetRemove(q: set<Order>, o: Order): set<Order> { set e | e in q && Cmp(e, o) != Equal }

  lemma SetInsertFresh(q: set<Order>, o: Order)
    requires Separated(q) && !HasEqual(q, o)
    ensures SetInsert(q, o) == q + {o} && o !in q && Separated(q + {o})
  {
    CmpAntisymmetric(o, o);
    forall a | a in q ensures Cmp(o, a) != Equal {
      CmpAntisymmetric(a, o);
    }
  }

  lemma SetRemoveMember(q: set<Order>, o: Order)
    requires Separated(q) && o in q
    ensures HasEqual(q, o) && SetRemove(q, o) == q - {o} && Separated(q - {o})
  {
    CmpAntisymmetric(o, o);
  }

  // ----- totals over a queue -----

  function Weight(o: Order): nat { if o.origin.IsLocalOrRetracted() then 0 else o.memUsage }

  /** Memory taken by the external orders. */
  ghost function ExternalMem(q: set<Order>): nat {
    if q == {} then 0 else var o :| o in q; Weight(o) + ExternalMem(q - {o})
  }

  lemma {:induction false} ExternalMemRemove(q: set<Order>, o: Order)
    requires o in q
    ensures ExternalMem(q) == Weight(o) + ExternalMem(q - {o})
  {
    var p :| p in q && ExternalMem(q) == Weight(p) + ExternalMem(q - {p});
    if p != o {
      ExternalMemRemove(q - {p}, o);
      ExternalMemRemove(q - {o}, p);
      assert q - {p} - {o} == q - {o} - {p};
    }
  }

  ghost function Externals(q: set<Order>): set<Order> { set o | o in q && !o.origin.IsLocalOrRetracted() }

  lemma ExternalsAdd(q: set<Order>, o: Order)
    requires o !in q
    ensures |Externals(q + {o})| == |Externals(q)| + if o.origin.IsLocalOrRetracted() then 0 else 1
  {
    if o.origin.IsLocalOrRetracted() {
      assert Externals(q + {o}) == Externals(q);
    } else {
      assert Externals(q + {o}) == Externals(q) + {o};
    }
  }

  ghost function WithFee(q: set<Order>, fee: nat): set<Order> { set o | o in q && o.fee == fee }

  lemma WithFeeAdd(q: set<Order>, o: Order, fee: nat)
    requires o !in q
    ensures |WithFee(q + {o}, fee)| == |WithFee(q, fee)| + if o.fee == fee then 1 else 0
  {
    if o.fee == fee {
      assert WithFee(q + {o}, fee) == WithFee(q, fee) + {o};
    } else {
      assert WithFee(q + {o}, fee) == WithFee(q, fee);
    }
  }

  /** The counter counts, for every fee that occurs, how many orders pay it. */
  ghost predicate CountsFees(counter: map<nat, nat>, q: set<Order>) {
    forall fee :: if fee in counter then counter[fee] == |WithFee(q, fee)| != 0 else |WithFee(q, fee)| == 0
  }

  ghost function SumOf(counter: map<nat, nat>): nat {
    if counter == map[] then 0 else var k :| k in counter; counter[k] + SumOf(counter - {k})
  }

  /** The counts of the fees add up to the size of the queue. */
  lemma {:induction false} FeeSum(counter: map<nat, nat>, q: set<Order>)
    requires CountsFees(counter, q)
    ensures SumOf(counter) == |q|
    decreases |counter|
  {
    if counter == map[] {
      assert forall o :: o in q ==> o in WithFee(q, o.fee);
      assert q == {};
    } else {
      var k :| k in counter && SumOf(counter) == counter[k] + SumOf(counter - {k});
      var rest := q - WithFee(q, k);
      forall fee ensures |WithFee(rest, fee)| == if fee == k then 0 else |WithFee(q, fee)| {
        if fee == k {
          assert WithFee(rest, fee) == {};
        } else {
          assert WithFee(rest, fee) == WithFee(q, fee);
        }
      }
      assert |counter - {k}| < |counter| by {
        assert (counter - {k}).Keys == counter.Keys - {k};
      }
      FeeSum(counter - {k}, rest);
      assert |q| == |WithFee(q, k)| + |rest|;
    }
  }

  // ----- the queues -----

  datatype FutureQueue = FutureQueue(queue: set<Order>, memUsage: nat, count: nat) {
    ghost predicate Ok() {
      Separated(queue) && memUsage == ExternalMem(queue) && count == |Externals(queue)|
    }

    function Insert(o: Order): FutureQueue {
      if o.origin.IsLocalOrRetracted() then this.(queue := SetInsert(queue, o))
      else FutureQueue(SetInsert(queue, o), memUsage + o.memUsage, count + 1)
    }

    function Remove(o: Order): FutureQueue
      requires HasEqual(queue, o)
      requires o.origin.IsLocalOrRetracted() || (o.memUsage <= memUsage && 0 < count)
    {
      if o.origin.IsLocalOrRetracted() then this.(queue := SetRemove(queue, o))
      else FutureQueue(SetRemove(queue, o), memUsage - o.memUsage, count - 1)
    }
  }

  lemma FutureInsert(f: FutureQueue, o: Order)
    requires f.Ok() && !HasEqual(f.queue, o)
    ensures f.Insert(o).Ok() && f.Insert(o).queue == f.queue + {o}
  {
    SetInsertFresh(f.queue, o);
    ExternalMemRemove(f.queue + {o}, o);
    assert f.queue + {o} - {o} == f.queue;
    ExternalsAdd(f.queue, o);
  }

  lemma FutureRemove(f: FutureQueue, o: Order)
    requires f.Ok() && o in f.queue
    ensures HasEqual(f.queue, o) && (o.origin.IsLocalOrRetracted() || (o.memUsage <= f.memUsage && 0 < f.count))
    ensures f.Remove(o).Ok() && f.Remove(o).queue == f.queue - {o}
  {
    SetRemoveMember(f.queue, o);
    ExternalMemRemove(f.queue, o);
    ExternalsAdd(f.queue - {o}, o);
    assert f.queue - {o} + {o} == f.queue;
  }

  datatype CurrentQueue = CurrentQueue(base: FutureQueue, feeCounter: map<nat, nat>) {
    ghost predicate Ok() { base.Ok() && CountsFees(feeCounter, base.queue) }

    function Insert(o: Order): CurrentQueue {
      CurrentQueue(base.Insert(o), feeCounter[o.fee := if o.fee in feeCounter then feeCounter[o.fee] + 1 else 1])
    }

    function Remove(o: Order): CurrentQueue
      requires HasEqual(base.queue, o)
      requires o.origin.IsLocalOrRetracted() || (o.memUsage <= base.memUsage && 0 < base.count)
      requires o.fee in feeCounter && feeCounter[o.fee] > 0
    {
      CurrentQueue(base.Remove(o),
                   if feeCounter[o.fee] == 1 then feeCounter - {o.fee} else feeCounter[o.fee := feeCounter[o.fee] - 1])
    }
  }

  lemma CurrentInsert(c: CurrentQueue, o: Order)
    requires c.Ok() && !HasEqual(c.base.queue, o)
    ensures c.Insert(o).Ok() && c.Insert(o).base.queue == c.base.queue + {o}
  {
    FutureInsert(c.base, o);
    SetInsertFresh(c.base.queue, o);
    forall fee {
      WithFeeAdd(c.base.queue, o, fee);
    }
  }

  lemma CurrentRemove(c: CurrentQueue, o: Order)
    requires c.Ok() && o in c.base.queue
    ensures HasEqual(c.base.queue, o) && (o.origin.IsLocalOrRetracted() || (o.memUsage <= c.base.memUsage && 0 < c.base.count))
    ensures o.fee in c.feeCounter && c.feeCounter[o.fee] > 0
    ensures c.Remove(o).Ok() && c.Remove(o).base.queue == c.base.queue - {o}
  {
    FutureRemove(c.base, o);
    assert o in WithFee(c.base.queue, o.fee);
    assert c.base.queue - {o} + {o} == c.base.queue;
    forall fee {
      WithFeeAdd(c.base.queue - {o}, o, fee);
    }
  }
}
