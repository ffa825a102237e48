/** Which transactions enter the pool: the first pass of an addition as a function of the tables
    (core/src/miner/mem_pool.rs, `add` and `verify_transaction`). */
module Admission {
  import opened Prelude
  import opened PoolTypes
  import opened PoolIndex
  import opened Placement

  datatype Input = Input(tx: Tx, origin: TxOrigin, timelock: Timelock)

  datatype Error =
    | InsufficientFee(minimal: nat, got: nat)
    | InsufficientBalance(cost: nat, balance: nat)
    | AlreadyImported
    | Old
    | TooCheapToReplace
    | LimitReached

  datatype Rules = Rules(minimalFee: nat, countLimit: nat, feeBumpShift: nat)

  /** What the first pass reads and changes. */
  datatype Tables = Tables(byHash: map<H256, Item>, bySigner: Table, locals: set<Public>, nextId: nat)

  function ShiftRight(x: nat, k: nat): nat { if k == 0 then x else ShiftRight(x / 2, k - 1) }

  /** Some order of the queue pays less. */
  ghost predicate Outbids(q: set<Order>, offer: nat) { exists o :: o in q && o.fee < offer }

  ghost function Fees(q: set<Order>): set<nat> { set o | o in q :: o.fee }

  /** One more than the lowest fee, or nothing for an empty queue. */
  ghost function MinimumFee(q: set<Order>): nat {
    if q == {} then 0 else assert (var o :| o in q; o.fee) in Fees(q); Least(Fees(q)) + 1
  }

  lemma MinimumFeeMeans(q: set<Order>, offer: nat)
    ensures offer < MinimumFee(q) <==> q != {} && !Outbids(q, offer)
  {
    if q != {} {
      var o :| o in q;
      assert o.fee in Fees(q);
      assert IsLeast(Fees(q), Least(Fees(q)));
      if Outbids(q, offer) {
        var o' :| o' in q && o'.fee < offer;
        assert o'.fee in Fees(q);
      }
    }
  }

  /** What a transaction must satisfy to enter the pool. */
  ghost predicate Accepts(rules: Rules, t: Tables, tx: Tx, origin: TxOrigin, account: Account) {
    var slot, q := Slot(tx.signer, tx.seqNo), OrdersIn(t.bySigner, Current);
    && tx.fee <= account.balance && tx.hash !in t.byHash && account.seqNo <= tx.seqNo
    && (origin != Local ==>
          && rules.minimalFee <= tx.fee
          && (|q| >= rules.countLimit && q != {} ==> Outbids(q, tx.fee))
          && (slot in t.bySigner ==>
                t.bySigner[slot].order.fee + ShiftRight(t.bySigner[slot].order.fee, rules.feeBumpShift) <= tx.fee))
  }

  /** The first thing that is wrong with a transaction. */
  ghost function FirstError(rules: Rules, t: Tables, tx: Tx, origin: TxOrigin, account: Account): (e: Option<Error>)
    ensures e.None? <==> Accepts(rules, t, tx, origin, account)
    ensures e != Some(LimitReached)
  {
    var slot, q := Slot(tx.signer, tx.seqNo), OrdersIn(t.bySigner, Current);
    var lowest := if |q| >= rules.countLimit then MinimumFee(q) else 0;
    MinimumFeeMeans(q, tx.fee);
    if origin != Local && tx.fee < rules.minimalFee then Some(InsufficientFee(rules.minimalFee, tx.fee))
    else if origin != Local && tx.fee < lowest then Some(InsufficientFee(lowest, tx.fee))
    else if account.balance < tx.fee then Some(InsufficientBalance(tx.fee, account.balance))
    else if tx.hash in t.byHash then Some(AlreadyImported)
    else if tx.seqNo < account.seqNo then Some(Old)
    else if origin != Local && slot in t.bySigner
            && tx.fee < t.bySigner[slot].order.fee + ShiftRight(t.bySigner[slot].order.fee, rules.feeBumpShift)
         then Some(TooCheapToReplace)
    else None
  }

  /** Which error is reported when several things are wrong: the first of these. */
  lemma ErrorsInWords(rules: Rules, t: Tables, tx: Tx, origin: TxOrigin, account: Account)
    ensures var e, q := FirstError(rules, t, tx, origin, account), OrdersIn(t.bySigner, Current);
            var slot := Slot(tx.signer, tx.seqNo);
            var cheap := origin != Local && tx.fee < rules.minimalFee;
            var outbid := origin != Local && |q| >= rules.countLimit && q != {} && !Outbids(q, tx.fee);
            var poor, known, late := account.balance < tx.fee, tx.hash in t.byHash, tx.seqNo < account.seqNo;
            && (e.Some? && e.value.InsufficientFee? <==> cheap || outbid)
            && (e.Some? && e.value.InsufficientFee? ==>
                  && e.value.got == tx.fee < e.value.minimal
                  && (cheap ==> e.value.minimal == rules.minimalFee)
                  && (!cheap ==>
                        && (forall o :: o in q ==> e.value.minimal <= o.fee + 1)
                        && exists o :: o in q && e.value.minimal == o.fee + 1))
            && (e == Some(InsufficientBalance(tx.fee, account.balance)) <==> !cheap && !outbid && poor)
            && (e == Some(AlreadyImported) <==> !cheap && !outbid && !poor && known)
            && (e == Some(Old) <==> !cheap && !outbid && !poor && !known && late)
            && (e == Some(TooCheapToReplace) <==>
                  && !outbid && !poor && !known && !late && !cheap && origin != Local && slot in t.bySigner
                  && tx.fee < t.bySigner[slot].order.fee + ShiftRight(t.bySigner[slot].order.fee, rules.feeBumpShift))
  {
    var q := OrdersIn(t.bySigner, Current);
    MinimumFeeMeans(q, tx.fee);
    if q != {} {
      MinimumFeeIsOne(q);
    }
  }

  lemma MinimumFeeIsOne(q: set<Order>)
    requires q != {}
    ensures (forall o :: o in q ==> MinimumFee(q) <= o.fee + 1) && exists o :: o in q && MinimumFee(q) == o.fee + 1
  {
    var some :| some in q;
    assert some.fee in Fees(q);
    var low := Least(Fees(q));
    assert IsLeast(Fees(q), low);
    var o :| o in q && o.fee == low;
    forall o | o in q ensures low <= o.fee {
      assert o.fee in Fees(q);
    }
  }

  /** Shifting right by k divides by two to the k. */
  lemma {:induction false} ShiftDivides(x: nat, k: nat)
    ensures ShiftRight(x, k) * Power2(k) <= x < (ShiftRight(x, k) + 1) * Power2(k)
  {
    if k > 0 {
      ShiftDivides(x / 2, k - 1);
      Halved(x, ShiftRight(x / 2, k - 1), Power2(k - 1));
    }
  }

  lemma Halved(x: nat, y: nat, p: nat)
    requires y * p <= x / 2 < (y + 1) * p
    ensures y * (2 * p) <= x < (y + 1) * (2 * p)
  {
    var a, b := y * p, (y + 1) * p;
    assert y * (2 * p) == 2 * a;
    assert (y + 1) * (2 * p) == 2 * b;
  }

  function Power2(k: nat): nat { if k == 0 then 1 else 2 * Power2(k - 1) }

  // ----- one input -----

  function SlotFor(input: Input): Slot { Slot(input.tx.signer, input.tx.seqNo) }

  /** External transactions of an account known as local count as local. */
  function OriginFor(input: Input, locals: set<Public>): TxOrigin {
    if input.origin.External? && input.tx.signer in locals then Local else input.origin
  }

  /** The account that the input makes local, if any. */
  function LocalSigner(input: Input): set<Public> { if input.origin.Local? then {input.tx.signer} else {} }

  ghost function Judge(rules: Rules, t: Tables, input: Input, fetch: Public -> Account): Option<Error> {
    FirstError(rules, t, input.tx, OriginFor(input, t.locals), fetch(input.tx.signer))
  }

  lemma AcceptedNotOld(rules: Rules, t: Tables, input: Input, fetch: Public -> Account)
    requires Judge(rules, t, input, fetch).None?
    ensures input.tx.hash !in t.byHash && fetch(input.tx.signer).seqNo <= input.tx.seqNo
  {
  }

  /** What the pool stores for an input. */
  function Stored(input: Input, origin: TxOrigin, now: Now, id: nat): Item {
    Item(input.tx, origin, now.block, now.timestamp, id, input.timelock)
  }

  /** An item takes its slot as a new transaction, and the one it replaces is gone. */
  function Entered(t: Tables, item: Item, accountSeq: nat): Tables
    requires accountSeq <= item.tx.seqNo
  {
    var s := SlotOf(item);
    var others := if s in t.bySigner then t.byHash - {t.bySigner[s].order.hash} else t.byHash;
    t.(byHash := others[item.tx.hash := item], bySigner := t.bySigner[s := Tagged(ForTransaction(item, accountSeq), New)],
       nextId := t.nextId + 1)
  }

  ghost function Imported(rules: Rules, t: Tables, input: Input, now: Now, fetch: Public -> Account): Tables {
    var t' := t.(locals := t.locals + LocalSigner(input));
    if Judge(rules, t, input, fetch).Some? then t'
    else Entered(t', Stored(input, OriginFor(input, t.locals), now, t.nextId), fetch(input.tx.signer).seqNo)
  }

  /** The input is accepted although its slot was taken by an earlier input of the same batch. */
  ghost predicate Clashes(rules: Rules, t: Tables, input: Input, fetch: Public -> Account) {
    IsNew(t.bySigner, SlotFor(input)) && Judge(rules, t, input, fetch).None?
  }

  // ----- a batch -----

  /** The tables after the first inputs. */
  ghost function Replay(rules: Rules, t: Tables, inputs: seq<Input>, now: Now, fetch: Public -> Account): Tables {
    if inputs == [] then t
    else Imported(rules, Replay(rules, t, inputs[..|inputs| - 1], now, fetch), inputs[|inputs| - 1], now, fetch)
  }

  lemma ReplayPush(rules: Rules, t: Tables, inputs: seq<Input>, i: nat, now: Now, fetch: Public -> Account)
    requires i < |inputs|
    ensures Replay(rules, t, inputs[..i + 1], now, fetch)
         == Imported(rules, Replay(rules, t, inputs[..i], now, fetch), inputs[i], now, fetch)
  {
    assert inputs[..i + 1][..i] == inputs[..i];
  }

  /** Some input clashes with an earlier one: the addition stops at an `unreachable!`. */
  ghost predicate Panics(rules: Rules, t: Tables, inputs: seq<Input>, now: Now, fetch: Public -> Account) {
    exists i :: 0 <= i < |inputs| && ClashesAt(rules, t, inputs, i, now, fetch)
  }

  ghost predicate ClashesAt(rules: Rules, t: Tables, inputs: seq<Input>, i: nat, now: Now, fetch: Public -> Account)
    requires i < |inputs|
  {
    Clashes(rules, Replay(rules, t, inputs[..i], now, fetch), inputs[i], fetch)
  }

  /** The answer to an input of a batch. */
  ghost function AnswerTo(rules: Rules, t: Tables, inputs: seq<Input>, i: nat, now: Now, fetch: Public -> Account): Option<Error>
    requires i < |inputs|
  {
    Judge(rules, Replay(rules, t, inputs[..i], now, fetch), inputs[i], fetch)
  }

  // ----- the tables stay linked -----

  lemma DescribesNew(item: Item, accountSeq: nat)
    requires accountSeq <= item.tx.seqNo
    ensures Describes(ForTransaction(item, accountSeq), item)
  {
  }

  lemma EnteredLinked(t: Tables, item: Item, accountSeq: nat)
    requires Linked(t.byHash, t.bySigner) && item.tx.hash !in t.byHash && accountSeq <= item.tx.seqNo
    ensures var t' := Entered(t, item, accountSeq); Linked(t'.byHash, t'.bySigner)
  {
    hide Linked, Describes;
    var s, o := SlotOf(item), ForTransaction(item, accountSeq);
    DescribesNew(item, accountSeq);
    if s in t.bySigner {
      var h := t.bySigner[s].order.hash;
      Unlinked(t.byHash, t.bySigner, s);
      LinkedAdded(t.byHash - {h}, t.bySigner - {s}, item, o);
      assert (t.bySigner - {s})[s := Tagged(o, New)] == t.bySigner[s := Tagged(o, New)];
    } else {
      LinkedAdded(t.byHash, t.bySigner, item, o);
    }
  }

  lemma {:induction false} ReplayLinked(rules: Rules, t: Tables, inputs: seq<Input>, now: Now, fetch: Public -> Account)
    requires Linked(t.byHash, t.bySigner)
    ensures var t' := Replay(rules, t, inputs, now, fetch); Linked(t'.byHash, t'.bySigner)
  {
    hide Linked;
    if inputs != [] {
      var i := |inputs| - 1;
      ReplayLinked(rules, t, inputs[..i], now, fetch);
      var before, input := Replay(rules, t, inputs[..i], now, fetch), inputs[i];
      if Judge(rules, before, input, fetch).None? {
        EnteredLinked(before.(locals := before.locals + LocalSigner(input)),
                      Stored(input, OriginFor(input, before.locals), now, before.nextId), fetch(input.tx.signer).seqNo);
      }
    }
  }

  // ----- when a batch does not panic -----

  /** No two different transactions of the batch claim the same slot. */
  ghost predicate Consistent(inputs: seq<Input>) {
    forall i, j :: 0 <= i < |inputs| && 0 <= j < |inputs| && SlotFor(inputs[i]) == SlotFor(inputs[j]) ==>
      inputs[i].tx.hash == inputs[j].tx.hash
  }

  /** New transactions are those of the inputs that claim their slots. */
  ghost predicate NewFrom(m: Table, inputs: seq<Input>) {
    forall k :: 0 <= k < |inputs| && IsNew(m, SlotFor(inputs[k])) ==> m[SlotFor(inputs[k])].order.hash == inputs[k].tx.hash
  }

  lemma {:induction false} ReplayNew(rules: Rules, t: Tables, inputs: seq<Input>, n: nat, now: Now, fetch: Public -> Account)
    requires Consistent(inputs) && n <= |inputs| && forall s :: s in t.bySigner ==> t.bySigner[s].tag != New
    ensures NewFrom(Replay(rules, t, inputs[..n], now, fetch).bySigner, inputs)
  {
    if n > 0 {
      ReplayNew(rules, t, inputs, n - 1, now, fetch);
      ReplayPush(rules, t, inputs, n - 1, now, fetch);
    }
  }

  /** A batch without two different transactions for one slot never panics. */
  lemma ConsistentNeverPanics(rules: Rules, t: Tables, inputs: seq<Input>, now: Now, fetch: Public -> Account)
    requires Linked(t.byHash, t.bySigner) && forall s :: s in t.bySigner ==> t.bySigner[s].tag != New
    requires Consistent(inputs)
    ensures !Panics(rules, t, inputs, now, fetch)
  {
    forall i | 0 <= i < |inputs| ensures !ClashesAt(rules, t, inputs, i, now, fetch) {
      ReplayNew(rules, t, inputs, i, now, fetch);
      ReplayLinked(rules, t, inputs[..i], now, fetch);
    }
  }

  /** Two funded local transactions for one slot: the second is accepted, and the addition panics. */
  lemma TwoForOneSlot(rules: Rules, a: Tx, b: Tx, now: Now, fetch: Public -> Account)
    requires Slot(a.signer, a.seqNo) == Slot(b.signer, b.seqNo) && a.hash != b.hash
    requires fetch(a.signer).seqNo <= a.seqNo && a.fee <= fetch(a.signer).balance && b.fee <= fetch(a.signer).balance
    ensures var inputs := [Input(a, Local, Timelock(None, None)), Input(b, Local, Timelock(None, None))];
            Panics(rules, Tables(map[], map[], {}, 0), inputs, now, fetch) && !Consistent(inputs)
  {
    var t, inputs := Tables(map[], map[], {}, 0), [Input(a, Local, Timelock(None, None)), Input(b, Local, Timelock(None, None))];
    assert inputs[..1] == [inputs[0]] && inputs[..1][..0] == [];
    assert Replay(rules, t, inputs[..1], now, fetch) == Imported(rules, t, inputs[0], now, fetch);
    assert ClashesAt(rules, t, inputs, 1, now, fetch);
    assert SlotFor(inputs[0]) == SlotFor(inputs[1]);
  }

  // ----- what a batch does to the tables -----

  ghost function LocalSigners(inputs: seq<Input>): set<Public> { set x | x in inputs && x.origin.Local? :: x.tx.signer }

  lemma LocalSignersPush(inputs: seq<Input>, input: Input)
    ensures LocalSigners(inputs + [input]) == LocalSigners(inputs) + LocalSigner(input)
  {
    assert forall x :: x in inputs + [input] <==> x in inputs || x == input;
  }

  predicate Claimed(inputs: seq<Input>, s: Slot) { exists i :: 0 <= i < |inputs| && SlotFor(inputs[i]) == s }

  /** Slots that no input claims are untouched. */
  ghost predicate OthersSame(m: Table, m': Table, inputs: seq<Input>) {
    && (forall s :: s in m ==> s in m')
    && (forall s :: s in m' && !Claimed(inputs, s) ==> s in m && m'[s] == m[s])
  }

  lemma OthersSameOne(m0: Table, m: Table, m': Table, inputs: seq<Input>, i: nat)
    requires i < |inputs| && OthersSame(m0, m, inputs[..i])
    requires m' == m || (SlotFor(inputs[i]) in m' && m' == m[SlotFor(inputs[i]) := m'[SlotFor(inputs[i])]])
    ensures OthersSame(m0, m', inputs[..i + 1])
  {
    forall s | !Claimed(inputs[..i + 1], s) ensures !Claimed(inputs[..i], s) && s != SlotFor(inputs[i]) {
      assert inputs[..i + 1][i] == inputs[i];
      forall j | 0 <= j < i ensures SlotFor(inputs[..i][j]) != s {
        assert inputs[..i + 1][j] == inputs[..i][j];
      }
    }
  }

  /** Slots that no input claims are untouched, and local inputs make their accounts local. */
  lemma {:induction false} ReplayOthers(rules: Rules, t: Tables, inputs: seq<Input>, n: nat, now: Now, fetch: Public -> Account)
    requires n <= |inputs|
    ensures OthersSame(t.bySigner, Replay(rules, t, inputs[..n], now, fetch).bySigner, inputs[..n])
    ensures Replay(rules, t, inputs[..n], now, fetch).locals == t.locals + LocalSigners(inputs[..n])
  {
    hide OthersSame, Judge, LocalSigners;
    if n == 0 {
      NoneSame(t.bySigner);
    } else {
      ReplayOthers(rules, t, inputs, n - 1, now, fetch);
      ReplayPush(rules, t, inputs, n - 1, now, fetch);
      OthersSameOne(t.bySigner, Replay(rules, t, inputs[..n - 1], now, fetch).bySigner,
                    Replay(rules, t, inputs[..n], now, fetch).bySigner, inputs, n - 1);
      assert inputs[..n] == inputs[..n - 1] + [inputs[n - 1]];
      LocalSignersPush(inputs[..n - 1], inputs[n - 1]);
    }
  }

  lemma NoneSame(m: Table)
    ensures OthersSame(m, m, []) && LocalSigners([]) == {}
  {
  }

  /** Runs that were intact stay intact: their transactions are there or replaced. */
  lemma {:induction false} ReplayIntact(rules: Rules, t: Tables, inputs: seq<Input>, now: Now, fetch: Public -> Account,
                                        p: Public, base: nat, end: nat, last: Now)
    requires RunIntact(t.bySigner, p, base, end, last)
    ensures RunIntact(Replay(rules, t, inputs, now, fetch).bySigner, p, base, end, last)
  {
    hide RunIntact;
    if inputs != [] {
      var i := |inputs| - 1;
      ReplayIntact(rules, t, inputs[..i], now, fetch, p, base, end, last);
      var before, input := Replay(rules, t, inputs[..i], now, fetch), inputs[i];
      if Judge(rules, before, input, fetch).None? {
        InsertedIntact(before.bySigner, SlotFor(input),
                       ForTransaction(Stored(input, OriginFor(input, before.locals), now, before.nextId), fetch(input.tx.signer).seqNo),
                       p, base, end, last);
      }
    }
  }

  /** The item says what came in, and when. */
  predicate IsStored(item: Item, input: Input, now: Now) {
    && item.tx == input.tx && item.timelock == input.timelock
    && item.block == now.block && item.timestamp == now.timestamp
  }

  predicate IsListed(t: Tables, input: Input, origin: TxOrigin, now: Now) {
    && IsNew(t.bySigner, SlotFor(input)) && t.bySigner[SlotFor(input)].order.hash == input.tx.hash
    && input.tx.hash in t.byHash && IsStored(t.byHash[input.tx.hash], input, now) && t.byHash[input.tx.hash].origin == origin
  }

  /** An accepted input keeps its place until the end of a batch that does not panic. */
  lemma {:induction false} ReplayListed(rules: Rules, t: Tables, inputs: seq<Input>, n: nat, now: Now, fetch: Public -> Account, i: nat)
    requires Linked(t.byHash, t.bySigner) && !Panics(rules, t, inputs, now, fetch)
    requires i < n <= |inputs| && AnswerTo(rules, t, inputs, i, now, fetch).None?
    ensures IsListed(Replay(rules, t, inputs[..n], now, fetch), inputs[i],
                     OriginFor(inputs[i], Replay(rules, t, inputs[..i], now, fetch).locals), now)
    decreases n
  {
    hide Linked, IsListed, Imported, Judge, Replay;
    ReplayPush(rules, t, inputs, n - 1, now, fetch);
    if i == n - 1 {
      EntersListed(rules, Replay(rules, t, inputs[..i], now, fetch), inputs[i], now, fetch);
    } else {
      ReplayListed(rules, t, inputs, n - 1, now, fetch, i);
      ReplayLinked(rules, t, inputs[..n - 1], now, fetch);
      assert !ClashesAt(rules, t, inputs, n - 1, now, fetch);
      StaysListed(rules, Replay(rules, t, inputs[..n - 1], now, fetch), inputs[i],
                  OriginFor(inputs[i], Replay(rules, t, inputs[..i], now, fetch).locals), inputs[n - 1], now, fetch);
    }
  }

  lemma EntersListed(rules: Rules, t: Tables, input: Input, now: Now, fetch: Public -> Account)
    requires Judge(rules, t, input, fetch).None?
    ensures IsListed(Imported(rules, t, input, now, fetch), input, OriginFor(input, t.locals), now)
  {
  }

  lemma StaysListed(rules: Rules, t: Tables, input: Input, origin: TxOrigin, more: Input, now: Now, fetch: Public -> Account)
    requires Linked(t.byHash, t.bySigner) && IsListed(t, input, origin, now) && !Clashes(rules, t, more, fetch)
    ensures IsListed(Imported(rules, t, more, now, fetch), input, origin, now)
  {
    hide Describes;
    if Judge(rules, t, more, fetch).None? {
      assert SlotFor(more) != SlotFor(input) && more.tx.hash != input.tx.hash;
    }
  }
}
