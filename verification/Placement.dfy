/** Which queue a transaction belongs to: the run of a signer's transactions that could go into blocks one after
    the other, and the table that settling the signers leads to (core/src/miner/mem_pool.rs). */
module Placement {
  import opened Prelude
  import opened PoolTypes

  type Table = map<Slot, Tagged>

  /** The block number and the timestamp that timelocks are compared with. */
  datatype Now = Now(block: nat, timestamp: nat)

  predicate Earlier(a: Now, b: Now) { a.block <= b.block && a.timestamp <= b.timestamp }

  predicate Waits(t: Timelock, now: Now) {
    (t.block.Some? && t.block.value > now.block) || (t.timestamp.Some? && t.timestamp.value > now.timestamp)
  }

  /** The signer has a transaction with this seq, and its timelock is over. */
  predicate ReadyAt(m: Table, p: Public, n: nat, now: Now) {
    Slot(p, n) in m && !Waits(m[Slot(p, n)].order.timelock, now)
  }

  predicate IsNew(m: Table, s: Slot) { s in m && m[s].tag == New }

  // ----- runs -----

  /** [start, end) is the maximal gap-free run of ready transactions from `start` on. */
  ghost predicate IsRun(m: Table, p: Public, start: nat, end: nat, now: Now) {
    start <= end && (forall n :: start <= n < end ==> ReadyAt(m, p, n, now)) && !ReadyAt(m, p, end, now)
  }

  lemma RunIsUnique(m: Table, p: Public, start: nat, end: nat, end': nat, now: Now)
    requires IsRun(m, p, start, end, now) && IsRun(m, p, start, end', now)
    ensures end == end'
  {
  }

  /** What a run is, in terms of seqs and locks: every transaction before the end is there, with a block number and a
      timestamp that have come; the one at the end is missing, or one of its locks has not come yet. */
  lemma RunInWords(m: Table, p: Public, start: nat, end: nat, now: Now)
    requires IsRun(m, p, start, end, now)
    ensures forall n :: start <= n < end ==>
              && Slot(p, n) in m
              && var t := m[Slot(p, n)].order.timelock;
                 (t.block.Some? ==> t.block.value <= now.block) && (t.timestamp.Some? ==> t.timestamp.value <= now.timestamp)
    ensures Slot(p, end) in m ==>
              var t := m[Slot(p, end)].order.timelock;
              (t.block.Some? && t.block.value > now.block) || (t.timestamp.Some? && t.timestamp.value > now.timestamp)
  {
    forall n | start <= n < end
      ensures Slot(p, n) in m
      ensures var t := m[Slot(p, n)].order.timelock;
              (t.block.Some? ==> t.block.value <= now.block) && (t.timestamp.Some? ==> t.timestamp.value <= now.timestamp)
    {
      assert ReadyAt(m, p, n, now);
    }
  }

  /** The signer's current transactions are those with seqs in [start, end). They are all there and not locked any more;
      the next one is missing or still locked. */
  ghost predicate CurrentUpTo(m: Table, p: Public, start: nat, end: nat, now: Now) {
    && start <= end
    && (forall n: nat :: Slot(p, n) in m && m[Slot(p, n)].tag == Current <==> start <= n < end)
    && (forall n: nat :: start <= n < end ==>
          && Slot(p, n) in m
          && var t := m[Slot(p, n)].order.timelock;
             (t.block.Some? ==> t.block.value <= now.block) && (t.timestamp.Some? ==> t.timestamp.value <= now.timestamp))
    && (Slot(p, end) in m ==>
          var t := m[Slot(p, end)].order.timelock;
          (t.block.Some? && t.block.value > now.block) || (t.timestamp.Some? && t.timestamp.value > now.timestamp))
  }

  /** A signer's current transactions are its maximal ready run from its account seq on. */
  ghost predicate CurrentIsRun(m: Table, fetch: Public -> Account, now: Now, p: Public) {
    exists end :: CurrentUpTo(m, p, fetch(p).seqNo, end, now)
  }

  ghost predicate AllCurrentAreRuns(m: Table, fetch: Public -> Account, now: Now) { forall p :: CurrentIsRun(m, fetch, now, p) }

  /** A signer's transactions from `n` on: what bounds the climb through its seqs. */
  ghost function Above(m: Table, p: Public, n: nat): set<Slot> { set s | s in m && s.signer == p && n <= s.seqNo }

  lemma AboveShrinks(m: Table, p: Public, n: nat)
    requires Slot(p, n) in m
    ensures |Above(m, p, n + 1)| < |Above(m, p, n)|
  {
    assert Above(m, p, n + 1) == Above(m, p, n) - {Slot(p, n)};
    assert Slot(p, n) in Above(m, p, n);
  }

  ghost function RunEnd(m: Table, p: Public, start: nat, now: Now): (end: nat)
    ensures IsRun(m, p, start, end, now)
    decreases |Above(m, p, start)|
  {
    if ReadyAt(m, p, start, now) then AboveShrinks(m, p, start); RunEnd(m, p, start + 1, now) else start
  }

  // ----- rows -----

  /** The signer's queued transactions count their height from `base`, and those below `end` are current. */
  ghost predicate Placed(m: Table, p: Public, base: nat, end: nat) {
    forall s :: s in m && s.signer == p && m[s].tag != New ==>
      && base <= s.seqNo && m[s].order.height == s.seqNo - base
      && (m[s].tag == Current <==> s.seqNo < end)
  }

  /** The queues list a signer's transactions of one origin by increasing seq. */
  lemma SignerInOrder(m: Table, p: Public, base: nat, end: nat, a: nat, b: nat)
    requires Placed(m, p, base, end) && a < b && Slot(p, a) in m && Slot(p, b) in m
    requires m[Slot(p, a)].tag != New && m[Slot(p, b)].tag != New
    requires m[Slot(p, a)].order.origin == m[Slot(p, b)].order.origin
    ensures SortsBefore(m[Slot(p, a)].order, m[Slot(p, b)].order)
  {
    HeightDecides(m[Slot(p, a)].order, m[Slot(p, b)].order);
  }

  /** The signer's transactions that are in no queue yet are those with the given seqs. */
  ghost predicate Unplaced(m: Table, p: Public, base: nat, seqs: set<nat>) {
    && (forall n :: n in seqs ==> IsNew(m, Slot(p, n)))
    && (forall s: Slot :: s.signer == p && IsNew(m, s) ==>
          s.seqNo in seqs && base <= s.seqNo && m[s].order.height == s.seqNo - base)
  }

  function Get(m: map<Public, nat>, p: Public, default: nat): nat { if p in m then m[p] else default }

  ghost predicate NoDuplicates(seqs: seq<nat>) { forall i, j :: 0 <= i < j < |seqs| ==> seqs[i] != seqs[j] }

  /** The row is placed by its recorded seqs, except for the new transactions listed in `seqs`. */
  ghost predicate RowOpen(m: Table, first: map<Public, nat>, next: map<Public, nat>, accountSeq: nat, seqs: seq<nat>, p: Public) {
    && Placed(m, p, Get(first, p, 0), Get(next, p, Get(first, p, 0)))
    && Unplaced(m, p, accountSeq, Elements<nat>(seqs)) && NoDuplicates(seqs)
  }

  function GetSeqs(m: map<Public, seq<nat>>, p: Public): seq<nat> { if p in m then m[p] else [] }

  /** Every row is open, with the new transactions that `toInsert` lists. */
  ghost predicate AllOpen(m: Table, first: map<Public, nat>, next: map<Public, nat>, fetch: Public -> Account,
                          toInsert: map<Public, seq<nat>>)
  {
    forall p :: RowOpen(m, first, next, fetch(p).seqNo, GetSeqs(toInsert, p), p)
  }

  /** Between two calls every row is placed by its recorded seqs. */
  ghost predicate RowPlaced(m: Table, first: map<Public, nat>, next: map<Public, nat>, p: Public) {
    && Placed(m, p, Get(first, p, 0), Get(next, p, Get(first, p, 0)))
    && forall s :: s in m && s.signer == p ==> m[s].tag != New
  }

  ghost predicate AllPlaced(m: Table, first: map<Public, nat>, next: map<Public, nat>) {
    forall p :: RowPlaced(m, first, next, p)
  }

  lemma PlacedRow(m: Table, first: map<Public, nat>, next: map<Public, nat>, p: Public)
    requires AllPlaced(m, first, next)
    ensures RowPlaced(m, first, next, p)
  {
  }

  lemma NothingNew(m: Table, first: map<Public, nat>, next: map<Public, nat>)
    requires AllPlaced(m, first, next)
    ensures forall s :: s in m ==> m[s].tag != New
  {
    forall s | s in m ensures m[s].tag != New {
      assert RowPlaced(m, first, next, s.signer);
    }
  }

  lemma PlacedPart(m: Table, m': Table, first: map<Public, nat>, next: map<Public, nat>)
    requires AllPlaced(m, first, next) && SubMap(m', m)
    ensures AllPlaced(m', first, next)
  {
    forall p ensures RowPlaced(m', first, next, p) {
      assert RowPlaced(m, first, next, p);
    }
  }

  lemma PlacedIsOpen(m: Table, first: map<Public, nat>, next: map<Public, nat>, fetch: Public -> Account)
    requires AllPlaced(m, first, next)
    ensures AllOpen(m, first, next, fetch, map[])
  {
    forall p ensures RowOpen(m, first, next, fetch(p).seqNo, GetSeqs(map[], p), p) {
      assert RowPlaced(m, first, next, p);
    }
  }

  /** A new transaction takes the slot `s`. */
  lemma InsertedRow(m: Table, s: Slot, o: Order, p: Public, base: nat, end: nat, accountSeq: nat, seqs: set<nat>)
    requires Placed(m, p, base, end) && Unplaced(m, p, accountSeq, seqs)
    requires s.signer == p ==> s.seqNo !in seqs && accountSeq <= s.seqNo && o.height == s.seqNo - accountSeq
    ensures Placed(m[s := Tagged(o, New)], p, base, end)
    ensures Unplaced(m[s := Tagged(o, New)], p, accountSeq, if s.signer == p then seqs + {s.seqNo} else seqs)
  {
  }

  lemma InsertedOpen(m: Table, first: map<Public, nat>, next: map<Public, nat>, fetch: Public -> Account,
                     toInsert: map<Public, seq<nat>>, s: Slot, o: Order)
    requires AllOpen(m, first, next, fetch, toInsert) && !IsNew(m, s)
    requires fetch(s.signer).seqNo <= s.seqNo && o.height == s.seqNo - fetch(s.signer).seqNo
    ensures AllOpen(m[s := Tagged(o, New)], first, next, fetch, toInsert[s.signer := GetSeqs(toInsert, s.signer) + [s.seqNo]])
  {
    var m', toInsert' := m[s := Tagged(o, New)], toInsert[s.signer := GetSeqs(toInsert, s.signer) + [s.seqNo]];
    forall p ensures RowOpen(m', first, next, fetch(p).seqNo, GetSeqs(toInsert', p), p) {
      hide Placed, Unplaced;
      var seqs := GetSeqs(toInsert, p);
      assert RowOpen(m, first, next, fetch(p).seqNo, seqs, p);
      if s.signer == p {
        NotListed(m, p, fetch(p).seqNo, seqs, s);
        ElementsPush<nat>(seqs, s.seqNo);
      }
      InsertedRow(m, s, o, p, Get(first, p, 0), Get(next, p, Get(first, p, 0)), fetch(p).seqNo, Elements<nat>(seqs));
    }
  }

  lemma NotListed(m: Table, p: Public, accountSeq: nat, seqs: seq<nat>, s: Slot)
    requires Unplaced(m, p, accountSeq, Elements<nat>(seqs)) && s.signer == p && !IsNew(m, s)
    ensures s.seqNo !in seqs && s.seqNo !in Elements<nat>(seqs)
  {
    assert s.seqNo in seqs ==> s.seqNo in Elements<nat>(seqs);
    assert s == Slot(p, s.seqNo);
  }

  // ----- updates of one row -----

  /** Moves the transactions in [lo, hi) to the queue `to`. */
  ghost function Moved(m: Table, p: Public, lo: nat, hi: nat, to: QueueTag): Table {
    map s | s in m :: if s.signer == p && lo <= s.seqNo < hi && m[s].tag != New then Tagged(m[s].order, to) else m[s]
  }

  function NewOrder(o: Order, seqNo: nat, base: nat, toLocal: bool): Order
    requires base <= seqNo
  {
    var o := o.UpdateHeight(seqNo, base);
    if toLocal then o.ChangeOrigin(Local) else o
  }

  /** Drops the old transactions, recounts the heights and sorts the rest into the queues, leaving
      the slots in `rest` for later. */
  ghost function ReorderedBut(m: Table, p: Public, base: nat, end: nat, toLocal: bool, rest: set<Slot>): Table {
    map s | s in m && !(s.signer == p && s !in rest && m[s].tag != New && s.seqNo < base) ::
      if s.signer == p && s !in rest && m[s].tag != New
      then Tagged(NewOrder(m[s].order, s.seqNo, base, toLocal), if s.seqNo < end then Current else Future)
      else m[s]
  }

  ghost function Reordered(m: Table, p: Public, base: nat, end: nat, toLocal: bool): Table {
    ReorderedBut(m, p, base, end, toLocal, {})
  }

  lemma ReorderOne(m: Table, p: Public, base: nat, end: nat, toLocal: bool, rest: set<Slot>, s: Slot)
    requires s in rest && s in m && s.signer == p
    ensures var done, t := ReorderedBut(m, p, base, end, toLocal, rest), m[s];
            && s in done && done[s] == t
            && ReorderedBut(m, p, base, end, toLocal, rest - {s})
            == if t.tag == New then done
               else if s.seqNo < base then done - {s}
               else done[s := Tagged(NewOrder(t.order, s.seqNo, base, toLocal), if s.seqNo < end then Current else Future)]
  {
  }

  lemma ReorderAll(m: Table, p: Public, base: nat, end: nat, toLocal: bool, row: set<Slot>)
    requires row == set s | s in m && s.signer == p
    ensures ReorderedBut(m, p, base, end, toLocal, row) == m
  {
  }

  /** Puts the listed transactions into the queues. */
  ghost function Settled(m: Table, p: Public, seqs: set<nat>, end: nat): Table {
    map s | s in m :: if s.signer == p && s.seqNo in seqs
                      then Tagged(m[s].order, if s.seqNo < end then Current else Future) else m[s]
  }

  lemma MoveOne(m: Table, p: Public, lo: nat, n: nat, to: QueueTag)
    requires lo <= n
    ensures var done, s := Moved(m, p, lo, n, to), Slot(p, n);
            && (s in done <==> s in m) && (s in m ==> done[s] == m[s])
            && Moved(m, p, lo, n + 1, to)
            == if s in m && m[s].tag != New then done[s := Tagged(m[s].order, to)] else done
  {
  }

  lemma MoveNothing(m: Table, p: Public, lo: nat, hi: nat, to: QueueTag)
    requires hi <= lo
    ensures Moved(m, p, lo, hi, to) == m
  {
  }

  lemma SettleOne(m: Table, p: Public, seqs: set<nat>, end: nat, n: nat)
    requires n !in seqs && Slot(p, n) in m
    ensures var done, s := Settled(m, p, seqs, end), Slot(p, n);
            && s in done && done[s] == m[s]
            && Settled(m, p, seqs + {n}, end) == done[s := Tagged(m[s].order, if n < end then Current else Future)]
  {
  }

  lemma SettleNothing(m: Table, p: Public, end: nat)
    ensures Settled(m, p, {}, end) == m
  {
  }

  /** Where the heights are right already, moving the transactions between the ends is all there is to do. */
  lemma MovedIsReordered(m: Table, p: Public, base: nat, end: nat, end': nat)
    requires Placed(m, p, base, end)
    ensures end' <= end ==> Moved(m, p, end', end, Future) == Reordered(m, p, base, end', false)
    ensures end <= end' ==> Moved(m, p, end, end', Current) == Reordered(m, p, base, end', false)
  {
  }

  // ----- the settled table -----

  /** What becomes of a transaction that is not older than its account. */
  function SettledCell(t: Tagged, seqNo: nat, accountSeq: nat, end: nat, toLocal: bool): Tagged
    requires accountSeq <= seqNo
  {
    Tagged(NewOrder(t.order, seqNo, accountSeq, toLocal && t.tag != New), if seqNo < end then Current else Future)
  }

  /** One signer is settled: old transactions are gone, the others are current below `end` and future from there. */
  ghost function SettledRow(m: Table, p: Public, accountSeq: nat, end: nat, toLocal: bool): Table {
    map s | s in m && (s.signer == p ==> accountSeq <= s.seqNo) ::
      if s.signer == p then SettledCell(m[s], s.seqNo, accountSeq, end, toLocal) else m[s]
  }

  lemma RowSettled(m: Table, p: Public, accountSeq: nat, end: nat, toLocal: bool, seqs: set<nat>)
    requires Unplaced(m, p, accountSeq, seqs)
    ensures Settled(Reordered(m, p, accountSeq, end, toLocal), p, seqs, end) == SettledRow(m, p, accountSeq, end, toLocal)
    ensures Unplaced(Reordered(m, p, accountSeq, end, toLocal), p, accountSeq, seqs)
  {
  }

  function Signers(m: Table): set<Public> { set s | s in m :: s.signer }

  /** All signers are settled but those in `rest`. */
  ghost function SettledBut(m: Table, fetch: Public -> Account, ends: map<Public, nat>, locals: set<Public>, rest: set<Public>): Table
    requires Signers(m) <= ends.Keys
  {
    map s | s in m && (s.signer in rest || fetch(s.signer).seqNo <= s.seqNo) ::
      if s.signer in rest then m[s]
      else SettledCell(m[s], s.seqNo, fetch(s.signer).seqNo, ends[s.signer], s.signer in locals)
  }

  /** The table that settling all signers leads to, in whatever order. */
  ghost function SettledTable(m: Table, fetch: Public -> Account, ends: map<Public, nat>, locals: set<Public>): Table
    requires Signers(m) <= ends.Keys
  {
    SettledBut(m, fetch, ends, locals, {})
  }

  lemma SettleFirst(m: Table, fetch: Public -> Account, ends: map<Public, nat>, locals: set<Public>)
    requires Signers(m) <= ends.Keys
    ensures SettledBut(m, fetch, ends, locals, Signers(m)) == m
  {
  }

  lemma SettleNext(m: Table, fetch: Public -> Account, ends: map<Public, nat>, locals: set<Public>, rest: set<Public>, p: Public)
    requires Signers(m) <= ends.Keys && p in rest && p in ends
    ensures var done := SettledBut(m, fetch, ends, locals, rest);
            && SameRow(m, done, p)
            && SettledBut(m, fetch, ends, locals, rest - {p}) == SettledRow(done, p, fetch(p).seqNo, ends[p], p in locals)
  {
    var done := SettledBut(m, fetch, ends, locals, rest);
    forall s ensures s in done && (s.signer == p ==> fetch(p).seqNo <= s.seqNo)
                     <==> s in m && (s.signer in rest - {p} || fetch(s.signer).seqNo <= s.seqNo)
    {
    }
  }

  /** The two tables have the same row for the signer. */
  ghost predicate SameRow(m: Table, m': Table, p: Public) {
    && (forall s :: s in m && s.signer == p ==> s in m' && m'[s] == m[s])
    && (forall s :: s in m' && s.signer == p ==> s in m)
  }

  lemma SameRowReady(m: Table, m': Table, p: Public)
    requires SameRow(m, m', p)
    ensures forall n, now :: ReadyAt(m, p, n, now) <==> ReadyAt(m', p, n, now)
    ensures forall n :: IsNew(m, Slot(p, n)) <==> IsNew(m', Slot(p, n))
  {
    forall n, now ensures ReadyAt(m, p, n, now) <==> ReadyAt(m', p, n, now) {
      assert Slot(p, n).signer == p;
    }
    forall n ensures IsNew(m, Slot(p, n)) <==> IsNew(m', Slot(p, n)) {
      assert Slot(p, n).signer == p;
    }
  }

  // ----- recorded seqs -----

  ghost predicate SameSeq(a: map<Public, nat>, b: map<Public, nat>, p: Public) {
    (p in a <==> p in b) && (p in a ==> a[p] == b[p])
  }

  /** The end of the run is recorded unless the run is empty. */
  predicate NextIs(next: map<Public, nat>, p: Public, accountSeq: nat, end: nat) {
    if accountSeq < end then p in next && next[p] == end else p !in next
  }

  /** The seqs of the settled signers, all but those in `rest`, are the account seqs and the ends; no others change. */
  ghost predicate SeqsSettled(signers: set<Public>, fetch: Public -> Account, ends: map<Public, nat>,
                              first0: map<Public, nat>, next0: map<Public, nat>, first: map<Public, nat>, next: map<Public, nat>,
                              rest: set<Public>)
    requires signers <= ends.Keys
  {
    forall p :: if p in signers && p !in rest
                then Get(first, p, 0) == fetch(p).seqNo && NextIs(next, p, fetch(p).seqNo, ends[p])
                else SameSeq(first0, first, p) && SameSeq(next0, next, p)
  }

  lemma SeqsStart(signers: set<Public>, fetch: Public -> Account, ends: map<Public, nat>, first: map<Public, nat>, next: map<Public, nat>)
    requires signers <= ends.Keys
    ensures SeqsSettled(signers, fetch, ends, first, next, first, next, signers)
  {
  }

  lemma SeqsNext(signers: set<Public>, fetch: Public -> Account, ends: map<Public, nat>,
                 first0: map<Public, nat>, next0: map<Public, nat>, first: map<Public, nat>, next: map<Public, nat>,
                 first': map<Public, nat>, next': map<Public, nat>, rest: set<Public>, p: Public)
    requires signers <= ends.Keys && p in signers
    requires SeqsSettled(signers, fetch, ends, first0, next0, first, next, rest)
    requires first' - {p} == first - {p} && next' - {p} == next - {p}
    requires Get(first', p, 0) == fetch(p).seqNo && NextIs(next', p, fetch(p).seqNo, ends[p])
    ensures SeqsSettled(signers, fetch, ends, first0, next0, first', next', rest - {p})
  {
    forall q ensures if q in signers && q !in rest - {p}
                     then Get(first', q, 0) == fetch(q).seqNo && NextIs(next', q, fetch(q).seqNo, ends[q])
                     else SameSeq(first0, first', q) && SameSeq(next0, next', q)
    {
      if q != p {
        SeqElsewhere(first, first', p, q);
        SeqElsewhere(next, next', p, q);
        assert q in rest - {p} <==> q in rest;
      }
    }
  }

  lemma SeqElsewhere(first: map<Public, nat>, first': map<Public, nat>, p: Public, q: Public)
    requires first' - {p} == first - {p} && p != q
    ensures SameSeq(first, first', q)
  {
    assert q in first <==> q in first - {p};
    assert q in first' <==> q in first' - {p};
    assert q in first ==> first[q] == (first - {p})[q];
    assert q in first' ==> first'[q] == (first' - {p})[q];
  }

  /** Settled rows are placed, whatever the ends. */
  lemma SettledPlaced(m: Table, fetch: Public -> Account, ends: map<Public, nat>, locals: set<Public>,
                      first0: map<Public, nat>, next0: map<Public, nat>, first: map<Public, nat>, next: map<Public, nat>)
    requires Signers(m) <= ends.Keys && forall p :: p in Signers(m) ==> fetch(p).seqNo <= ends[p]
    requires SeqsSettled(Signers(m), fetch, ends, first0, next0, first, next, {})
    ensures AllPlaced(SettledTable(m, fetch, ends, locals), first, next)
  {
    var m' := SettledTable(m, fetch, ends, locals);
    forall p ensures RowPlaced(m', first, next, p) {
      forall s | s in m' && s.signer == p ensures p in Signers(m) {
      }
      if p in Signers(m) {
        assert p !in {};
        RecordedEnd(first, next, p, fetch(p).seqNo, ends[p]);
      }
    }
  }

  lemma RecordedEnd(first: map<Public, nat>, next: map<Public, nat>, p: Public, accountSeq: nat, end: nat)
    requires Get(first, p, 0) == accountSeq <= end && NextIs(next, p, accountSeq, end)
    ensures Get(next, p, Get(first, p, 0)) == end
  {
  }

  // ----- exact placement -----

  /** The recorded seqs delimit the maximal ready run. */
  ghost predicate Exact(m: Table, first: map<Public, nat>, next: map<Public, nat>, now: Now, p: Public) {
    IsRun(m, p, Get(first, p, 0), Get(next, p, Get(first, p, 0)), now)
  }

  /** Under exact placement a signer's current transactions are exactly the maximal ready run from the
      recorded account seq. */
  lemma ExactMeansMaximalRun(m: Table, first: map<Public, nat>, next: map<Public, nat>, now: Now, p: Public, n: nat)
    requires RowPlaced(m, first, next, p) && Exact(m, first, next, now, p)
    ensures var base := Get(first, p, 0);
            Slot(p, n) in m && m[Slot(p, n)].tag == Current <==> base <= n < RunEnd(m, p, base, now)
  {
    var base := Get(first, p, 0);
    RunIsUnique(m, p, base, RunEnd(m, p, base, now), Get(next, p, base), now);
    if base <= n < RunEnd(m, p, base, now) {
      assert ReadyAt(m, p, n, now);
    }
  }

  lemma ExactUpTo(m: Table, first: map<Public, nat>, next: map<Public, nat>, now: Now, p: Public)
    requires RowPlaced(m, first, next, p) && Exact(m, first, next, now, p)
    ensures CurrentUpTo(m, p, Get(first, p, 0), Get(next, p, Get(first, p, 0)), now)
  {
    hide RowPlaced, IsRun;
    var base := Get(first, p, 0);
    RunInWords(m, p, base, Get(next, p, base), now);
    RunIsUnique(m, p, base, RunEnd(m, p, base, now), Get(next, p, base), now);
    forall n: nat ensures Slot(p, n) in m && m[Slot(p, n)].tag == Current <==> base <= n < Get(next, p, base) {
      ExactMeansMaximalRun(m, first, next, now, p, n);
    }
    RunForward(m, p, base, Get(next, p, base), now);
  }

  lemma RunForward(m: Table, p: Public, start: nat, end: nat, now: Now)
    requires IsRun(m, p, start, end, now)
    ensures start <= end
  {
  }

  /** Settling keeps what is ready from the account seq on. */
  lemma SettledReady(m: Table, fetch: Public -> Account, ends: map<Public, nat>, locals: set<Public>, p: Public, n: nat, now: Now)
    requires Signers(m) <= ends.Keys && fetch(p).seqNo <= n
    ensures ReadyAt(SettledTable(m, fetch, ends, locals), p, n, now) <==> ReadyAt(m, p, n, now)
  {
  }

  /** A settled signer is exact if and only if its end is that of the maximal ready run; a signer without
      transactions if and only if its recorded run is empty. */
  lemma SettledExact(m: Table, fetch: Public -> Account, ends: map<Public, nat>, locals: set<Public>,
                     first0: map<Public, nat>, next0: map<Public, nat>, first: map<Public, nat>, next: map<Public, nat>,
                     now: Now, p: Public)
    requires Signers(m) <= ends.Keys && (p in Signers(m) ==> fetch(p).seqNo <= ends[p])
    requires SeqsSettled(Signers(m), fetch, ends, first0, next0, first, next, {})
    ensures Exact(SettledTable(m, fetch, ends, locals), first, next, now, p)
            <==> if p in Signers(m) then IsRun(m, p, fetch(p).seqNo, ends[p], now)
                 else Get(first0, p, 0) == Get(next0, p, Get(first0, p, 0))
  {
    var m' := SettledTable(m, fetch, ends, locals);
    assert p !in {};
    if p in Signers(m) {
      RecordedEnd(first, next, p, fetch(p).seqNo, ends[p]);
      forall n: nat | fetch(p).seqNo <= n ensures ReadyAt(m', p, n, now) <==> ReadyAt(m, p, n, now) {
        SettledReady(m, fetch, ends, locals, p, n, now);
      }
    } else {
      assert SameSeq(first0, first, p) && SameSeq(next0, next, p);
      forall n: nat ensures !ReadyAt(m', p, n, now) {
        assert Slot(p, n) in m' ==> Slot(p, n).signer in Signers(m);
      }
      assert !ReadyAt(m', p, Get(first, p, 0), now);
    }
  }

  // ----- the end of the run after an addition -----

  /** The end of the run is looked for from the account seq on. */
  predicate FromScratch(base: nat, recorded: nat, accountSeq: nat, last: Now, now: Now) {
    accountSeq < base || !Earlier(last, now) || recorded < accountSeq
  }

  /** The run is not taken past this seq: below the recorded end only new transactions are looked at. */
  predicate StopsAt(m: Table, p: Public, n: nat, recorded: nat, now: Now) {
    !ReadyAt(m, p, n, now) && (n < recorded ==> IsNew(m, Slot(p, n)))
  }

  ghost function StopFrom(m: Table, p: Public, n: nat, recorded: nat, now: Now): (end: nat)
    ensures n <= end && StopsAt(m, p, end, recorded, now)
    ensures forall k :: n <= k < end ==> !StopsAt(m, p, k, recorded, now)
    decreases if n < recorded then recorded - n else 0, |Above(m, p, n)|
  {
    if StopsAt(m, p, n, recorded, now) then n
    else if n < recorded then StopFrom(m, p, n + 1, recorded, now)
    else AboveShrinks(m, p, n); StopFrom(m, p, n + 1, recorded, now)
  }

  lemma StopIsUnique(m: Table, p: Public, n: nat, recorded: nat, now: Now, end: nat)
    requires n <= end && StopsAt(m, p, end, recorded, now)
    requires forall k :: n <= k < end ==> !StopsAt(m, p, k, recorded, now)
    ensures end == StopFrom(m, p, n, recorded, now)
  {
  }

  /** Where the signer's run ends after an addition. */
  ghost function NewEnd(m: Table, first: map<Public, nat>, next: map<Public, nat>, accountSeq: nat, last: Now, now: Now, p: Public): nat {
    var recorded := Get(next, p, accountSeq);
    StopFrom(m, p, accountSeq,
             if FromScratch(Get(first, p, 0), recorded, accountSeq, last, now) then accountSeq else recorded, now)
  }

  ghost function NewEnds(m: Table, first: map<Public, nat>, next: map<Public, nat>, fetch: Public -> Account, last: Now, now: Now):
    (ends: map<Public, nat>)
    ensures ends.Keys == Signers(m) && forall p :: p in ends ==> fetch(p).seqNo <= ends[p]
  {
    map p | p in Signers(m) :: NewEnd(m, first, next, fetch(p).seqNo, last, now, p)
  }

  /** The transactions of the old run [base, end) are still there; those that were not replaced are ready. */
  ghost predicate RunIntact(m: Table, p: Public, base: nat, end: nat, now: Now) {
    base <= end && forall n :: base <= n < end ==> Slot(p, n) in m && (m[Slot(p, n)].tag == New || ReadyAt(m, p, n, now))
  }

  /** Looking at the new transactions below the recorded end is enough to find the end of the maximal ready
      run, if the old run is intact. */
  lemma NewEndIsRun(m: Table, first: map<Public, nat>, next: map<Public, nat>, accountSeq: nat, last: Now, now: Now, p: Public)
    requires RunIntact(m, p, Get(first, p, 0), Get(next, p, Get(first, p, 0)), last)
    ensures IsRun(m, p, accountSeq, NewEnd(m, first, next, accountSeq, last, now, p), now)
  {
    var recorded, end := Get(next, p, accountSeq), NewEnd(m, first, next, accountSeq, last, now, p);
    if !FromScratch(Get(first, p, 0), recorded, accountSeq, last, now) {
      forall n | accountSeq <= n < end ensures ReadyAt(m, p, n, now) {
        assert !StopsAt(m, p, n, recorded, now);
        if n < recorded {
          assert p in next && Slot(p, n) in m;
        }
      }
    } else {
      forall n | accountSeq <= n < end ensures ReadyAt(m, p, n, now) {
        assert !StopsAt(m, p, n, accountSeq, now);
      }
    }
  }

  lemma InsertedIntact(m: Table, s: Slot, o: Order, p: Public, base: nat, end: nat, now: Now)
    requires RunIntact(m, p, base, end, now)
    ensures RunIntact(m[s := Tagged(o, New)], p, base, end, now)
  {
    var m' := m[s := Tagged(o, New)];
    forall n | base <= n < end ensures Slot(p, n) in m' && (m'[Slot(p, n)].tag == New || ReadyAt(m', p, n, now)) {
      assert Slot(p, n) in m;
    }
  }

  lemma RunIsIntact(m: Table, p: Public, base: nat, end: nat, now: Now)
    requires IsRun(m, p, base, end, now)
    ensures RunIntact(m, p, base, end, now)
  {
    forall n | base <= n < end ensures Slot(p, n) in m && ReadyAt(m, p, n, now) {
      assert ReadyAt(m, p, n, now);
    }
  }

  // ----- one signer after the other -----

  /** What is to be settled: a table with its recorded seqs, the accounts, where the runs end, and the accounts
      that have just become local. */
  datatype Plan = Plan(m: Table, first: map<Public, nat>, next: map<Public, nat>, fetch: Public -> Account,
                       ends: map<Public, nat>, locals: set<Public>)

  /** All signers but those in `rest` have been settled. */
  ghost predicate Settling(plan: Plan, m: Table, first: map<Public, nat>, next: map<Public, nat>, rest: set<Public>) {
    && Signers(plan.m) <= plan.ends.Keys && m == SettledBut(plan.m, plan.fetch, plan.ends, plan.locals, rest)
    && SeqsSettled(Signers(plan.m), plan.fetch, plan.ends, plan.first, plan.next, first, next, rest)
  }

  lemma SettlingStarts(plan: Plan)
    requires Signers(plan.m) <= plan.ends.Keys
    ensures Settling(plan, plan.m, plan.first, plan.next, Signers(plan.m))
  {
    SettleFirst(plan.m, plan.fetch, plan.ends, plan.locals);
    SeqsStart(Signers(plan.m), plan.fetch, plan.ends, plan.first, plan.next);
  }

  lemma SettlingOne(plan: Plan, m: Table, first: map<Public, nat>, next: map<Public, nat>,
                    m': Table, first': map<Public, nat>, next': map<Public, nat>, rest: set<Public>, p: Public)
    requires Settling(plan, m, first, next, rest) && p in rest && p in Signers(plan.m)
    requires m' == SettledRow(m, p, plan.fetch(p).seqNo, plan.ends[p], p in plan.locals)
    requires first' - {p} == first - {p} && next' - {p} == next - {p}
    requires Get(first', p, 0) == plan.fetch(p).seqNo && NextIs(next', p, plan.fetch(p).seqNo, plan.ends[p])
    ensures Settling(plan, m', first', next', rest - {p})
  {
    hide SettledBut, SettledRow, SeqsSettled, Signers;
    SettleNext(plan.m, plan.fetch, plan.ends, plan.locals, rest, p);
    SeqsNext(Signers(plan.m), plan.fetch, plan.ends, plan.first, plan.next, first, next, first', next', rest, p);
  }

  lemma SettlingEnds(plan: Plan, m: Table, first: map<Public, nat>, next: map<Public, nat>)
    requires Settling(plan, m, first, next, {})
    ensures m == SettledTable(plan.m, plan.fetch, plan.ends, plan.locals)
    ensures SeqsSettled(Signers(plan.m), plan.fetch, plan.ends, plan.first, plan.next, first, next, {})
  {
  }

  /** The row of a signer that is still to be settled is as it was at first. */
  lemma SettlingRow(plan: Plan, m: Table, first: map<Public, nat>, next: map<Public, nat>, rest: set<Public>, p: Public)
    requires Settling(plan, m, first, next, rest) && p in rest && p in Signers(plan.m)
    ensures SameRow(plan.m, m, p) && SameSeq(plan.first, first, p) && SameSeq(plan.next, next, p)
  {
    SettleNext(plan.m, plan.fetch, plan.ends, plan.locals, rest, p);
  }

  lemma SameRowOpen(m: Table, first: map<Public, nat>, next: map<Public, nat>,
                    m': Table, first': map<Public, nat>, next': map<Public, nat>, accountSeq: nat, seqs: seq<nat>, p: Public)
    requires SameRow(m, m', p) && SameSeq(first, first', p) && SameSeq(next, next', p)
    ensures RowOpen(m, first, next, accountSeq, seqs, p) ==> RowOpen(m', first', next', accountSeq, seqs, p)
    ensures RowPlaced(m, first, next, p) ==> RowPlaced(m', first', next', p)
  {
    SameRowReady(m, m', p);
    forall s: Slot | s.signer == p && IsNew(m', s) ensures IsNew(m, s) {
      assert s == Slot(p, s.seqNo);
    }
  }

  lemma SameRowEnds(m: Table, first: map<Public, nat>, next: map<Public, nat>,
                    m': Table, first': map<Public, nat>, next': map<Public, nat>, accountSeq: nat, last: Now, now: Now, p: Public)
    requires SameRow(m, m', p) && SameSeq(first, first', p) && SameSeq(next, next', p)
    ensures NewEnd(m, first, next, accountSeq, last, now, p) == NewEnd(m', first', next', accountSeq, last, now, p)
  {
    hide ReadyAt, SameRow;
    SameRowReady(m, m', p);
    var recorded := Get(next, p, accountSeq);
    var stop := if FromScratch(Get(first, p, 0), recorded, accountSeq, last, now) then accountSeq else recorded;
    var end := StopFrom(m, p, accountSeq, stop, now);
    forall k | accountSeq <= k < end ensures !StopsAt(m', p, k, stop, now) {
      assert !StopsAt(m, p, k, stop, now);
    }
    StopIsUnique(m', p, accountSeq, stop, now, end);
  }

  lemma SameRowRun(m: Table, m': Table, start: nat, now: Now, p: Public)
    requires SameRow(m, m', p)
    ensures RunEnd(m, p, start, now) == RunEnd(m', p, start, now)
  {
    SameRowReady(m, m', p);
    RunIsUnique(m', p, start, RunEnd(m', p, start, now), RunEnd(m, p, start, now), now);
  }

  // ----- local accounts -----

  /** Local accounts whose last transaction was old are local no more. */
  ghost function StillLocal(locals: set<Public>, m: Table, m': Table): set<Public> {
    set p | p in locals && (p in Signers(m) ==> p in Signers(m'))
  }

  ghost predicate Drains(m0: Table, m: Table, before: set<Public>, after: set<Public>, rest: set<Public>) {
    forall p :: p in after <==> p in before && (p in Signers(m0) && p !in rest ==> p in Signers(m))
  }

  lemma DrainsStart(m: Table, locals: set<Public>, rest: set<Public>)
    ensures Drains(m, m, locals, locals, rest)
  {
  }

  lemma DrainsOne(m0: Table, m: Table, before: set<Public>, after: set<Public>, rest: set<Public>, p: Public,
                  accountSeq: nat, end: nat, toLocal: bool)
    requires Drains(m0, m, before, after, rest) && p in rest && p in Signers(m0)
    ensures var m' := SettledRow(m, p, accountSeq, end, toLocal);
            Drains(m0, m', before, if p in Signers(m') then after else after - {p}, rest - {p})
  {
    var m' := SettledRow(m, p, accountSeq, end, toLocal);
    forall q | q != p ensures q in Signers(m) <==> q in Signers(m') {
      if q in Signers(m) {
        var s :| s in m && s.signer == q;
        assert s in m';
      }
      if q in Signers(m') {
        var s :| s in m' && s.signer == q;
        assert s in m;
      }
    }
  }

  lemma DrainsEnd(m0: Table, m: Table, before: set<Public>, after: set<Public>)
    requires Drains(m0, m, before, after, {})
    ensures after == StillLocal(before, m0, m)
  {
  }
}
