/** The transactions that exceed the limits of a queue (core/src/miner/mem_pool.rs, `enforce_limit`). */
module Eviction {
  import opened Prelude
  import opened PoolTypes
  import opened Queues
  import opened PoolIndex
  import opened Placement

  /** Every non-empty queue has a first order. */
  lemma {:induction false} FirstExists(q: set<Order>)
    requires q != {} && Separated(q)
    ensures exists o :: o in q && forall e :: e in q && e != o ==> SortsBefore(o, e)
  {
    var a :| a in q;
    var rest := q - {a};
    assert forall e :: e in q && e != a ==> e in rest;
    if rest == {} {
      assert a in q && forall e :: e in q && e != a ==> SortsBefore(a, e);
    } else {
      FirstExists(rest);
      var b :| b in rest && forall e :: e in rest && e != b ==> SortsBefore(b, e);
      assert Cmp(a, b) != Equal;
      CmpAntisymmetric(a, b);
      if SortsBefore(b, a) {
        assert b in q && forall e :: e in q && e != b ==> SortsBefore(b, e);
      } else {
        forall e | e in q && e != a ensures SortsBefore(a, e) {
          if e != b {
            CmpTransitive(a, b, e);
          }
        }
      }
    }
  }

  // ----- running totals -----

  ghost function Mem(q: set<Order>): nat {
    if q == {} then 0 else var o :| o in q; o.memUsage + Mem(q - {o})
  }

  lemma {:induction false} MemRemove(q: set<Order>, o: Order)
    requires o in q
    ensures Mem(q) == o.memUsage + Mem(q - {o})
  {
    var p :| p in q && Mem(q) == p.memUsage + Mem(q - {p});
    if p != o {
      MemRemove(q - {p}, o);
      MemRemove(q - {o}, p);
      assert q - {p} - {o} == q - {o} - {p};
    }
  }

  lemma {:induction false} MemMonotone(a: set<Order>, b: set<Order>)
    requires a <= b
    ensures ExternalMem(a) <= Mem(b) && Mem(a) <= Mem(b)
    decreases |b|
  {
    if b != {} {
      var o :| o in b;
      MemRemove(b, o);
      MemMonotone(a - {o}, b - {o});
      if o in a {
        MemRemove(a, o);
        ExternalMemRemove(a, o);
      } else {
        assert a - {o} == a;
      }
    }
  }

  /** The orders up to and including `o`. */
  ghost function Upto(q: set<Order>, o: Order): set<Order> { set e | e in q && (e == o || SortsBefore(e, o)) }

  /** A running total exceeds its limit at `o`. Local and retracted orders count too. */
  ghost predicate IsOver(q: set<Order>, o: Order, limit: nat, memLimit: nat) {
    |Upto(q, o)| > limit || Mem(Upto(q, o)) > memLimit
  }

  /** The external orders at which a running total exceeds its limit. */
  ghost function OverLimit(q: set<Order>, limit: nat, memLimit: nat): set<Order> {
    set o | o in q && !o.origin.IsLocalOrRetracted() && IsOver(q, o, limit, memLimit)
  }

  /** The external orders alone exceed a limit. */
  ghost predicate Exceeds(q: set<Order>, limit: nat, memLimit: nat) {
    |Externals(q)| > limit || ExternalMem(q) > memLimit
  }

  /** What a queue has to give up. */
  ghost function ToDrop(q: set<Order>, limit: nat, memLimit: nat): set<Order> {
    if Exceeds(q, limit, memLimit) then OverLimit(q, limit, memLimit) else {}
  }

  // ----- walking a queue -----

  /** The visited orders come before those in `rest`. */
  ghost predicate Behind(q: set<Order>, rest: set<Order>) {
    rest <= q && (forall a, b :: a in q - rest && b in rest ==> SortsBefore(a, b))
  }

  lemma BehindOne(q: set<Order>, rest: set<Order>, o: Order)
    requires Separated(q) && Behind(q, rest) && o in rest && forall e :: e in rest && e != o ==> SortsBefore(o, e)
    ensures Behind(q, rest - {o}) && Upto(q, o) == q - (rest - {o})
  {
    hide SortsBefore;
    forall a, b | a in q - (rest - {o}) && b in rest - {o} ensures SortsBefore(a, b) {
      assert a in q - rest || a == o;
    }
    forall e | e in q ensures e == o || SortsBefore(e, o) <==> e !in rest - {o} {
      if e in rest && e != o {
        NotBoth(o, e);
      }
    }
  }

  lemma NotBoth(a: Order, b: Order)
    requires SortsBefore(a, b)
    ensures !SortsBefore(b, a)
  {
    CmpAntisymmetric(a, b);
  }

  /** Halfway through the queue: `count` and `mem` total the visited orders, and `dropped` are those among them that
      have to go. */
  ghost predicate Walked(q: set<Order>, rest: set<Order>, dropped: set<Order>, count: nat, mem: nat, limit: nat, memLimit: nat) {
    && Behind(q, rest) && count == |q - rest| && mem == Mem(q - rest)
    && dropped == OverLimit(q, limit, memLimit) - rest
  }

  lemma WalkOne(q: set<Order>, rest: set<Order>, dropped: set<Order>, count: nat, mem: nat, limit: nat, memLimit: nat, o: Order)
    requires Separated(q) && Walked(q, rest, dropped, count, mem, limit, memLimit)
    requires o in rest && forall e :: e in rest && e != o ==> SortsBefore(o, e)
    ensures o !in dropped
    ensures var over := !o.origin.IsLocalOrRetracted() && (mem + o.memUsage > memLimit || count + 1 > limit);
            Walked(q, rest - {o}, if over then dropped + {o} else dropped, count + 1, mem + o.memUsage, limit, memLimit)
  {
    hide SortsBefore, Separated, IsOver;
    BehindOne(q, rest, o);
    OneMore(q, rest, o, limit, memLimit);
  }

  lemma WalkNone(q: set<Order>, limit: nat, memLimit: nat)
    ensures Walked(q, q, Elements<Order>([]), 0, 0, limit, memLimit)
  {
    assert q - q == {};
  }

  lemma WalkAll(q: set<Order>, dropped: set<Order>, count: nat, mem: nat, limit: nat, memLimit: nat)
    requires Walked(q, {}, dropped, count, mem, limit, memLimit)
    ensures dropped == OverLimit(q, limit, memLimit)
  {
  }

  /** Walks the queue in order and collects the external orders at which a running total exceeds its limit. */
  method GetOrdersToDrop(q: set<Order>, limit: nat, memLimit: nat) returns (drop: seq<Order>)
    requires Separated(q)
    ensures Elements<Order>(drop) == OverLimit(q, limit, memLimit)
    ensures forall i, j :: 0 <= i < j < |drop| ==> drop[i] != drop[j]
  {
    hide Walked, SortsBefore, Separated, OverLimit;
    drop := [];
    var rest := q;
    var count: nat, mem: nat := 0, 0;
    WalkNone(q, limit, memLimit);
    while rest != {}
      invariant rest <= q && Walked(q, rest, Elements<Order>(drop), count, mem, limit, memLimit)
      invariant forall i, j :: 0 <= i < j < |drop| ==> drop[i] != drop[j]
      decreases |rest|
    {
      SeparatedPart(q, rest);
      FirstExists(rest);
      var o :| o in rest && forall e :: e in rest && e != o ==> SortsBefore(o, e);
      WalkOne(q, rest, Elements<Order>(drop), count, mem, limit, memLimit, o);
      ElementsPush<Order>(drop, o);
      count := count + 1;
      mem := mem + o.memUsage;
      if !o.origin.IsLocalOrRetracted() && (mem > memLimit || count > limit) {
        drop := drop + [o];
      }
      rest := rest - {o};
    }
    WalkAll(q, Elements<Order>(drop), count, mem, limit, memLimit);
  }

  lemma OneMore(q: set<Order>, rest: set<Order>, o: Order, limit: nat, memLimit: nat)
    requires rest <= q && o in rest && Upto(q, o) == q - (rest - {o})
    ensures |q - (rest - {o})| == |q - rest| + 1 && Mem(q - (rest - {o})) == Mem(q - rest) + o.memUsage
    ensures IsOver(q, o, limit, memLimit) <==> |q - rest| + 1 > limit || Mem(q - rest) + o.memUsage > memLimit
  {
    assert q - (rest - {o}) == (q - rest) + {o};
    MemRemove((q - rest) + {o}, o);
    assert (q - rest) + {o} - {o} == q - rest;
  }

  lemma SeparatedPart(q: set<Order>, rest: set<Order>)
    requires Separated(q) && rest <= q
    ensures Separated(rest)
  {
  }

  // ----- what eviction achieves -----

  /** `kept` and `dropped` split the external orders of `q` so that what is kept is within both limits
      and sorts before what is dropped. */
  ghost predicate IsEviction(q: set<Order>, kept: set<Order>, dropped: set<Order>, limit: nat, memLimit: nat) {
    && kept !! dropped && kept + dropped == Externals(q)
    && |kept| <= limit && ExternalMem(kept) <= memLimit
    && forall k, d :: k in kept && d in dropped ==> SortsBefore(k, d)
  }

  /** Every non-empty queue has a last order. */
  lemma {:induction false} LastExists(q: set<Order>) returns (o: Order)
    requires q != {} && Separated(q)
    ensures o in q && forall e :: e in q && e != o ==> SortsBefore(e, o)
  {
    FirstExists(q);
    var a :| a in q && forall e :: e in q && e != a ==> SortsBefore(a, e);
    o := a;
    if q != {a} {
      SeparatedPart(q, q - {a});
      o := LastExists(q - {a});
    }
  }

  lemma OverStays(q: set<Order>, a: Order, b: Order, limit: nat, memLimit: nat)
    requires a in q && b in q && SortsBefore(a, b) && IsOver(q, a, limit, memLimit)
    ensures IsOver(q, b, limit, memLimit)
  {
    forall e | e in Upto(q, a) ensures e in Upto(q, b) {
      if e != a {
        CmpTransitive(e, a, b);
      }
    }
    SubsetSize(Upto(q, a), Upto(q, b));
    MemMonotone(Upto(q, a), Upto(q, b));
  }

  lemma ExternalMemOfExternals(q: set<Order>)
    ensures ExternalMem(q) == ExternalMem(Externals(q))
    decreases q
  {
    if q != {} {
      var o :| o in q;
      ExternalMemRemove(q, o);
      ExternalMemOfExternals(q - {o});
      if o.origin.IsLocalOrRetracted() {
        assert Externals(q - {o}) == Externals(q);
      } else {
        assert Externals(q - {o}) == Externals(q) - {o};
        ExternalMemRemove(Externals(q), o);
      }
    }
  }

  /** What is left is within both limits, and sorts before what goes. */
  lemma DropIsEviction(q: set<Order>, limit: nat, memLimit: nat)
    requires Separated(q)
    ensures IsEviction(q, Externals(q) - ToDrop(q, limit, memLimit), ToDrop(q, limit, memLimit), limit, memLimit)
  {
    hide SortsBefore, IsOver;
    var drop := ToDrop(q, limit, memLimit);
    var kept := Externals(q) - drop;
    if Exceeds(q, limit, memLimit) {
      KeptWithin(q, kept, limit, memLimit);
      forall k, d | k in kept && d in drop ensures SortsBefore(k, d) {
        if !SortsBefore(k, d) {
          Comparable(q, k, d);
          OverStays(q, d, k, limit, memLimit);
        }
      }
    } else {
      ExternalMemOfExternals(q);
      assert kept == Externals(q);
    }
  }

  lemma Comparable(q: set<Order>, a: Order, b: Order)
    requires Separated(q) && a in q && b in q && a != b && !SortsBefore(a, b)
    ensures SortsBefore(b, a)
  {
    CmpAntisymmetric(a, b);
  }

  lemma KeptWithin(q: set<Order>, kept: set<Order>, limit: nat, memLimit: nat)
    requires Separated(q) && kept <= q && forall k :: k in kept ==> !IsOver(q, k, limit, memLimit)
    ensures |kept| <= limit && ExternalMem(kept) <= memLimit
  {
    if kept != {} {
      SeparatedPart(q, kept);
      var last := LastExists(kept);
      forall k | k in kept ensures k in Upto(q, last) {
      }
      SubsetSize(kept, Upto(q, last));
      MemMonotone(kept, Upto(q, last));
    }
  }

  // ----- the table -----

  /** The transaction has to go because of a limit of its queue. */
  ghost predicate Evicted(m: Table, s: Slot, limit: nat, memLimit: nat)
    requires s in m
  {
    m[s].order in ToDrop(OrdersIn(m, m[s].tag), limit, memLimit)
  }

  /** Only external transactions have to go, and only if the external ones of their queue exceed a limit. */
  lemma EvictedIsExternal(m: Table, s: Slot, limit: nat, memLimit: nat)
    requires s in m && Evicted(m, s, limit, memLimit)
    ensures m[s].order.origin == External
    ensures var q := set o | o in OrdersIn(m, m[s].tag) && o.origin == External; |q| > limit || Mem(q) > memLimit
  {
    var all := OrdersIn(m, m[s].tag);
    var q := set o | o in all && o.origin == External;
    assert q == Externals(all);
    ExternalMemOfExternals(all);
    MemMonotone(q, q);
  }

  /** Of two external transactions with the same height, the one that pays more per byte goes first. */
  lemma DearerGoesFirst(m: Table, a: Slot, b: Slot, limit: nat, memLimit: nat)
    requires a in m && b in m && m[a].tag == m[b].tag && m[a].order.origin == m[b].order.origin
    requires m[a].order.height == m[b].order.height && m[a].order.feePerByte < m[b].order.feePerByte
    requires Evicted(m, a, limit, memLimit)
    ensures Evicted(m, b, limit, memLimit)
  {
    hide IsOver;
    OverStays(OrdersIn(m, m[a].tag), m[a].order, m[b].order, limit, memLimit);
  }

  /** The table after both queues have given up what exceeds their limits. */
  ghost function EvictedTable(m: Table, limit: nat, memLimit: nat): Table {
    map s | s in m && !Evicted(m, s, limit, memLimit) :: m[s]
  }

  /** One queue after the other. */
  lemma EvictedOneByOne(m: Table, limit: nat, memLimit: nat)
    requires forall s :: s in m ==> m[s].tag != New
    ensures var mid := WithoutOrders(m, Current, ToDrop(OrdersIn(m, Current), limit, memLimit));
            && OrdersIn(mid, Future) == OrdersIn(m, Future)
            && WithoutOrders(mid, Future, ToDrop(OrdersIn(m, Future), limit, memLimit)) == EvictedTable(m, limit, memLimit)
  {
    hide ToDrop;
    var mid := WithoutOrders(m, Current, ToDrop(OrdersIn(m, Current), limit, memLimit));
    forall s ensures s in mid && mid[s].tag == Future <==> s in m && m[s].tag == Future {
    }
    assert OrdersIn(mid, Future) == OrdersIn(m, Future);
  }

  /** Taking transactions out leaves a signer's placement exact if and only if none of them was current. */
  lemma EvictedExact(m: Table, limit: nat, memLimit: nat, first: map<Public, nat>, next: map<Public, nat>, now: Now, p: Public)
    requires RowPlaced(m, first, next, p) && Exact(m, first, next, now, p)
    ensures Exact(EvictedTable(m, limit, memLimit), first, next, now, p)
            <==> forall s :: s in m && s.signer == p && m[s].tag == Current ==> !Evicted(m, s, limit, memLimit)
  {
    hide Evicted;
    var m' := EvictedTable(m, limit, memLimit);
    var base := Get(first, p, 0);
    var end := Get(next, p, base);
    if forall s :: s in m && s.signer == p && m[s].tag == Current ==> !Evicted(m, s, limit, memLimit) {
      forall n | base <= n < end ensures ReadyAt(m', p, n, now) {
        assert ReadyAt(m, p, n, now);
      }
    }
    if Exact(m', first, next, now, p) {
      forall s | s in m && s.signer == p && m[s].tag == Current ensures !Evicted(m, s, limit, memLimit) {
        assert s == Slot(p, s.seqNo);
        assert ReadyAt(m', p, s.seqNo, now);
      }
    }
  }
}
