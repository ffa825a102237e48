/** What taking transactions out does to the placement of the rest (core/src/miner/mem_pool.rs, `remove`). */
module Removal {
  import opened Prelude
  import opened PoolTypes
  import opened Placement

  /** The table without the listed transactions. */
  ghost function Purged(m: Table, hashes: set<H256>): Table {
    map s | s in m && m[s].order.hash !in hashes :: m[s]
  }

  /** The seqs that the signer loses, not counting transactions older than the account. */
  ghost function Lost(m: Table, hashes: set<H256>, p: Public, accountSeq: nat): set<nat> {
    set s | s in m && s.signer == p && m[s].order.hash in hashes && accountSeq <= s.seqNo :: s.seqNo
  }

  /** The lowest of them. */
  ghost function LowestLost(m: Table, hashes: set<H256>, p: Public, accountSeq: nat): Option<nat> {
    var lost := Lost(m, hashes, p, accountSeq);
    if lost == {} then None else Some(Least(lost))
  }

  function Find(removed: map<Public, nat>, p: Public): Option<nat> { if p in removed then Some(removed[p]) else None }

  /** The notes say what each signer has lost. */
  ghost predicate Notes(m: Table, hashes: set<H256>, fetch: Public -> Account, removed: map<Public, nat>) {
    forall p :: Find(removed, p) == LowestLost(m, hashes, p, fetch(p).seqNo)
  }

  lemma NothingLost(m: Table, fetch: Public -> Account)
    ensures Purged(m, {}) == m && Notes(m, {}, fetch, map[])
  {
  }

  /** A hash that is not in the table changes nothing. */
  lemma NotThere(m: Table, hashes: set<H256>, hash: H256, fetch: Public -> Account, removed: map<Public, nat>)
    requires forall s :: s in m ==> m[s].order.hash != hash
    ensures Purged(m, hashes + {hash}) == Purged(m, hashes)
    ensures Notes(m, hashes, fetch, removed) ==> Notes(m, hashes + {hash}, fetch, removed)
  {
    if Notes(m, hashes, fetch, removed) {
      forall p ensures Find(removed, p) == LowestLost(m, hashes + {hash}, p, fetch(p).seqNo) {
        assert Lost(m, hashes + {hash}, p, fetch(p).seqNo) == Lost(m, hashes, p, fetch(p).seqNo);
      }
    }
  }

  /** One more transaction is taken out. */
  lemma LoseOne(m: Table, hashes: set<H256>, s: Slot, fetch: Public -> Account, removed: map<Public, nat>, removed': map<Public, nat>)
    requires s in m && m[s].order.hash !in hashes && Notes(m, hashes, fetch, removed)
    requires forall s' :: s' in m && m[s'].order.hash == m[s].order.hash ==> s' == s
    requires removed' == if fetch(s.signer).seqNo <= s.seqNo && (s.signer in removed ==> s.seqNo < removed[s.signer])
                         then removed[s.signer := s.seqNo] else removed
    ensures s in Purged(m, hashes) && Purged(m, hashes + {m[s].order.hash}) == Purged(m, hashes) - {s}
    ensures Notes(m, hashes + {m[s].order.hash}, fetch, removed')
  {
    var hashes' := hashes + {m[s].order.hash};
    forall p ensures Find(removed', p) == LowestLost(m, hashes', p, fetch(p).seqNo) {
      LostMore(m, hashes, s, p, fetch(p).seqNo);
      assert Find(removed, p) == LowestLost(m, hashes, p, fetch(p).seqNo);
    }
  }

  lemma LostMore(m: Table, hashes: set<H256>, s: Slot, p: Public, accountSeq: nat)
    requires s in m && m[s].order.hash !in hashes
    requires forall s' :: s' in m && m[s'].order.hash == m[s].order.hash ==> s' == s
    ensures var lost := LowestLost(m, hashes, p, accountSeq);
            LowestLost(m, hashes + {m[s].order.hash}, p, accountSeq)
            == if s.signer == p && accountSeq <= s.seqNo && (lost.Some? ==> s.seqNo < lost.value) then Some(s.seqNo) else lost
  {
    var before, after := Lost(m, hashes, p, accountSeq), Lost(m, hashes + {m[s].order.hash}, p, accountSeq);
    if s.signer == p && accountSeq <= s.seqNo {
      assert after == before + {s.seqNo};
    } else {
      assert after == before;
    }
  }

  // ----- the end of the run after a removal -----

  /** Where the signer's run is taken to end: at the lowest lost seq, if nothing speaks for looking again. */
  ghost function EndAfterLoss(purged: Table, lost: Option<nat>, first: map<Public, nat>, next: map<Public, nat>, accountSeq: nat,
                              last: Now, now: Now, p: Public): nat
  {
    var recorded := Get(next, p, accountSeq);
    if FromScratch(Get(first, p, 0), recorded, accountSeq, last, now) then RunEnd(purged, p, accountSeq, now)
    else if lost.Some? then lost.value
    else RunEnd(purged, p, recorded, now)
  }

  lemma SameRowLoss(m: Table, first: map<Public, nat>, next: map<Public, nat>,
                    m': Table, first': map<Public, nat>, next': map<Public, nat>, lost: Option<nat>, accountSeq: nat,
                    last: Now, now: Now, p: Public)
    requires SameRow(m, m', p) && SameSeq(first, first', p) && SameSeq(next, next', p)
    ensures EndAfterLoss(m, lost, first, next, accountSeq, last, now, p)
         == EndAfterLoss(m', lost, first', next', accountSeq, last, now, p)
  {
    hide SameRow;
    SameRowRun(m, m', accountSeq, now, p);
    SameRowRun(m, m', Get(next, p, accountSeq), now, p);
  }

  ghost function RemovedEnd(m: Table, hashes: set<H256>, first: map<Public, nat>, next: map<Public, nat>, accountSeq: nat,
                            last: Now, now: Now, p: Public): (end: nat)
    ensures accountSeq <= end
  {
    EndAfterLoss(Purged(m, hashes), LowestLost(m, hashes, p, accountSeq), first, next, accountSeq, last, now, p)
  }

  ghost function RemovedEnds(m: Table, hashes: set<H256>, first: map<Public, nat>, next: map<Public, nat>, fetch: Public -> Account,
                             last: Now, now: Now): (ends: map<Public, nat>)
    ensures ends.Keys == Signers(Purged(m, hashes)) && forall p :: p in ends ==> fetch(p).seqNo <= ends[p]
  {
    map p | p in Signers(Purged(m, hashes)) :: RemovedEnd(m, hashes, first, next, fetch(p).seqNo, last, now, p)
  }

  ghost function EndsAfterLoss(purged: Table, removed: map<Public, nat>, first: map<Public, nat>, next: map<Public, nat>,
                               fetch: Public -> Account, last: Now, now: Now): map<Public, nat>
  {
    map p | p in Signers(purged) :: EndAfterLoss(purged, Find(removed, p), first, next, fetch(p).seqNo, last, now, p)
  }

  lemma EndsByNotes(m: Table, hashes: set<H256>, first: map<Public, nat>, next: map<Public, nat>, fetch: Public -> Account,
                    removed: map<Public, nat>, last: Now, now: Now)
    requires Notes(m, hashes, fetch, removed)
    ensures EndsAfterLoss(Purged(m, hashes), removed, first, next, fetch, last, now)
         == RemovedEnds(m, hashes, first, next, fetch, last, now)
  {
    hide EndAfterLoss, LowestLost, Purged;
    forall p ensures Find(removed, p) == LowestLost(m, hashes, p, fetch(p).seqNo) {
    }
  }

  /** The table after a removal: settled by these ends, with no account becoming local. */
  ghost function RemovedTable(m: Table, hashes: set<H256>, first: map<Public, nat>, next: map<Public, nat>, fetch: Public -> Account,
                              last: Now, now: Now): Table
  {
    SettledTable(Purged(m, hashes), fetch, RemovedEnds(m, hashes, first, next, fetch, last, now), {})
  }

  // ----- when the placement stays exact -----

  /** When removal leaves a signer's placement exact: its run was empty if it has nothing left; otherwise no
      transaction that must wait, and no gap, lies between the account seq and the lowest lost seq. */
  ghost predicate Smooth(m: Table, hashes: set<H256>, first: map<Public, nat>, next: map<Public, nat>, accountSeq: nat,
                         last: Now, now: Now, p: Public)
  {
    var base, purged, lost := Get(first, p, 0), Purged(m, hashes), LowestLost(m, hashes, p, accountSeq);
    if p !in Signers(purged) then base == Get(next, p, base)
    else || FromScratch(base, Get(next, p, accountSeq), accountSeq, last, now)
         || lost.None?
         || forall n :: accountSeq <= n < lost.value ==> ReadyAt(purged, p, n, now)
  }

  /** The signers that were placed exactly still are, if and only if what they lose is smooth. */
  ghost predicate ExactIffSmooth(m: Table, hashes: set<H256>, first: map<Public, nat>, next: map<Public, nat>, fetch: Public -> Account,
                                 last: Now, now: Now, m': Table, first': map<Public, nat>, next': map<Public, nat>)
  {
    forall p :: Exact(m, first, next, last, p) ==>
      (Exact(m', first', next', now, p) <==> Smooth(m, hashes, first, next, fetch(p).seqNo, last, now, p))
  }

  /** The lowest lost seq is the end of the run if and only if everything before it is ready. */
  lemma RunToGap(m: Table, hashes: set<H256>, p: Public, accountSeq: nat, now: Now)
    requires LowestLost(m, hashes, p, accountSeq).Some?
    ensures var gap := LowestLost(m, hashes, p, accountSeq).value;
            IsRun(Purged(m, hashes), p, accountSeq, gap, now)
            <==> forall n :: accountSeq <= n < gap ==> ReadyAt(Purged(m, hashes), p, n, now)
  {
    var gap := LowestLost(m, hashes, p, accountSeq).value;
    assert gap in Lost(m, hashes, p, accountSeq);
    assert Slot(p, gap) !in Purged(m, hashes);
  }

  /** Without a loss the run goes on from where it ended. */
  lemma RunGoesOn(m: Table, hashes: set<H256>, first: map<Public, nat>, next: map<Public, nat>, accountSeq: nat, last: Now, now: Now,
                  p: Public)
    requires Exact(m, first, next, last, p) && LowestLost(m, hashes, p, accountSeq).None?
    requires !FromScratch(Get(first, p, 0), Get(next, p, accountSeq), accountSeq, last, now)
    ensures IsRun(Purged(m, hashes), p, accountSeq, RunEnd(Purged(m, hashes), p, Get(next, p, accountSeq), now), now)
  {
    var purged, recorded := Purged(m, hashes), Get(next, p, accountSeq);
    forall n | accountSeq <= n < recorded ensures ReadyAt(purged, p, n, now) {
      assert ReadyAt(m, p, n, last);
      assert m[Slot(p, n)].order.hash in hashes ==> Slot(p, n).seqNo in Lost(m, hashes, p, accountSeq);
    }
  }

  /** Where a signer's run is taken to end is where it ends, if and only if what the signer loses is smooth. */
  lemma RemovedEndIsRun(m: Table, hashes: set<H256>, first: map<Public, nat>, next: map<Public, nat>, accountSeq: nat,
                        last: Now, now: Now, p: Public)
    requires Exact(m, first, next, last, p) && p in Signers(Purged(m, hashes))
    ensures IsRun(Purged(m, hashes), p, accountSeq, RemovedEnd(m, hashes, first, next, accountSeq, last, now, p), now)
            <==> Smooth(m, hashes, first, next, accountSeq, last, now, p)
  {
    hide IsRun, Purged, LowestLost, Signers;
    if !FromScratch(Get(first, p, 0), Get(next, p, accountSeq), accountSeq, last, now) {
      if LowestLost(m, hashes, p, accountSeq).Some? {
        RunToGap(m, hashes, p, accountSeq, now);
      } else {
        RunGoesOn(m, hashes, first, next, accountSeq, last, now, p);
      }
    }
  }

  lemma RemovedExact(m: Table, hashes: set<H256>, first: map<Public, nat>, next: map<Public, nat>, fetch: Public -> Account,
                     last: Now, now: Now, first': map<Public, nat>, next': map<Public, nat>)
    requires SeqsSettled(Signers(Purged(m, hashes)), fetch, RemovedEnds(m, hashes, first, next, fetch, last, now),
                         first, next, first', next', {})
    ensures ExactIffSmooth(m, hashes, first, next, fetch, last, now,
                           RemovedTable(m, hashes, first, next, fetch, last, now), first', next')
  {
    hide SeqsSettled, IsRun, Purged, LowestLost, SettledBut, Signers, Exact, RemovedEnd, SettledTable;
    var purged, ends := Purged(m, hashes), RemovedEnds(m, hashes, first, next, fetch, last, now);
    forall p | Exact(m, first, next, last, p)
      ensures Exact(SettledTable(purged, fetch, ends, {}), first', next', now, p)
              <==> Smooth(m, hashes, first, next, fetch(p).seqNo, last, now, p)
    {
      SettledExact(purged, fetch, ends, {}, first, next, first', next', now, p);
      if p in Signers(purged) {
        RemovedEndIsRun(m, hashes, first, next, fetch(p).seqNo, last, now, p);
      }
    }
  }
}
