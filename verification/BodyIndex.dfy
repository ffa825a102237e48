/** What the transaction indexes of a branch should contain, and how the entries written for a change
    of the best block turn the indexes of one branch into those of another
    (core/src/blockchain/body_db.rs, core/src/blockchain/extras.rs). */
module BodyIndex {
  import opened Prelude
  import opened Database

  /** A transaction together with its position. */
  datatype Entry = Entry(address: Address, tx: Transaction)

  function BlockEntries(hash: H256, body: Body): (es: seq<Entry>)
    ensures |es| == |body|
  {
    seq(|body|, i requires 0 <= i < |body| => Entry(Address(hash, i), body[i]))
  }

  /** All transactions of the listed blocks, in chain order. */
  function Entries(bodies: map<H256, Body>, blocks: seq<H256>): seq<Entry>
    requires forall h :: h in blocks ==> h in bodies
  {
    if blocks == [] then []
    else Entries(bodies, blocks[..|blocks| - 1]) + BlockEntries(blocks[|blocks| - 1], bodies[blocks[|blocks| - 1]])
  }

  /** No transaction hash occurs twice. */
  ghost predicate NoRepeat(es: seq<Entry>) {
    forall i, j :: 0 <= i < j < |es| ==> es[i].tx.hash != es[j].tx.hash
  }

  /** No position occurs twice. */
  ghost predicate NoOverlap(es: seq<Entry>) {
    forall i, j :: 0 <= i < j < |es| ==> es[i].address != es[j].address
  }

  /** The hash index holds exactly the positions of `es`. */
  ghost predicate IsParcelIndex(parcels: map<H256, Address>, es: seq<Entry>) {
    && (forall i :: 0 <= i < |es| ==> es[i].tx.hash in parcels && parcels[es[i].tx.hash] == es[i].address)
    && (forall h :: h in parcels ==> exists i :: 0 <= i < |es| && es[i].tx.hash == h)
  }

  lemma ParcelLookup(parcels: map<H256, Address>, es: seq<Entry>, h: H256)
    requires IsParcelIndex(parcels, es)
    ensures h in parcels <==> exists e :: e in es && e.tx.hash == h
    ensures forall e :: e in es && e.tx.hash == h ==> h in parcels && parcels[h] == e.address
  {
    if h in parcels {
      var i :| 0 <= i < |es| && es[i].tx.hash == h;
      assert es[i] in es;
    }
  }

  /** The positions in `es` with the tracker `t`, in chain order. */
  function TrackerList(es: seq<Entry>, t: H256): seq<Address> {
    if es == [] then []
    else TrackerList(es[..|es| - 1], t) +
         if es[|es| - 1].tx.tracker == Some(t) then [es[|es| - 1].address] else []
  }

  /** The tracker index holds exactly the positions of `es`, in chain order and without duplicates. */
  ghost predicate IsTrackerIndex(trackers: map<H256, seq<Address>>, es: seq<Entry>) {
    forall t :: if t in trackers then trackers[t] == TrackerList(es, t) != [] else TrackerList(es, t) == []
  }

  // ----- address lists -----

  function Without(a: seq<Address>, b: seq<Address>): seq<Address> {
    if a == [] then []
    else Without(a[..|a| - 1], b) + if a[|a| - 1] in b then [] else [a[|a| - 1]]
  }

  /** Appends what is not there yet. */
  function AddAddresses(a: seq<Address>, b: seq<Address>): seq<Address> { a + Without(b, a) }

  function SubAddresses(a: seq<Address>, b: seq<Address>): seq<Address> { Without(a, b) }

  lemma {:induction false} WithoutDisjoint(a: seq<Address>, b: seq<Address>)
    requires forall x :: x in a ==> x !in b
    ensures Without(a, b) == a
  {
    if a != [] {
      var n := |a| - 1;
      assert a[n] in a;
      forall x | x in a[..n] ensures x !in b {
        assert x in a;
      }
      WithoutDisjoint(a[..n], b);
      assert a == a[..n] + [a[n]];
    }
  }

  lemma NoChange(a: seq<Address>)
    ensures SubAddresses(a, []) == a && AddAddresses(a, []) == a
  {
    WithoutDisjoint(a, []);
    assert a + [] == a;
  }

  lemma {:induction false} WithoutAll(a: seq<Address>, b: seq<Address>)
    requires forall x :: x in a ==> x in b
    ensures Without(a, b) == []
  {
    if a != [] {
      assert a[|a| - 1] in a;
      assert forall x :: x in a[..|a| - 1] ==> x in a;
      WithoutAll(a[..|a| - 1], b);
    }
  }

  lemma {:induction false} WithoutConcat(a: seq<Address>, a': seq<Address>, b: seq<Address>)
    ensures Without(a + a', b) == Without(a, b) + Without(a', b)
  {
    if a' == [] {
      assert a + a' == a;
    } else {
      assert (a + a')[..|a + a'| - 1] == a + a'[..|a'| - 1];
      WithoutConcat(a, a'[..|a'| - 1], b);
    }
  }

  // ----- lists of entries -----

  lemma {:induction false} EntriesConcat(bodies: map<H256, Body>, a: seq<H256>, b: seq<H256>)
    requires forall h :: h in a + b ==> h in bodies
    ensures (forall h :: h in a ==> h in bodies) && (forall h :: h in b ==> h in bodies)
    ensures Entries(bodies, a + b) == Entries(bodies, a) + Entries(bodies, b)
  {
    assert forall h :: h in a ==> h in a + b;
    assert forall h :: h in b ==> h in a + b;
    if b == [] {
      assert a + b == a;
    } else {
      var n := |b| - 1;
      assert (a + b)[..|a + b| - 1] == a + b[..n];
      assert forall h :: h in a + b[..n] ==> h in a + b;
      EntriesConcat(bodies, a, b[..n]);
    }
  }

  lemma {:induction false} EntriesGrow(bodies: map<H256, Body>, bodies': map<H256, Body>, a: seq<H256>)
    requires forall h :: h in a ==> h in bodies && h in bodies' && bodies[h] == bodies'[h]
    ensures Entries(bodies, a) == Entries(bodies', a)
  {
    if a != [] {
      assert a[|a| - 1] in a;
      EntriesGrow(bodies, bodies', a[..|a| - 1]);
    }
  }

  /** Which entries the listed blocks have, whatever the order of the blocks. */
  lemma {:induction false} EntriesMember(bodies: map<H256, Body>, blocks: seq<H256>, e: Entry)
    requires forall h :: h in blocks ==> h in bodies
    ensures e in Entries(bodies, blocks) <==>
              && e.address.block in blocks
              && e.address.index < |bodies[e.address.block]|
              && e.tx == bodies[e.address.block][e.address.index]
  {
    if blocks != [] {
      var n := |blocks| - 1;
      var last := BlockEntries(blocks[n], bodies[blocks[n]]);
      EntriesMember(bodies, blocks[..n], e);
      assert blocks == blocks[..n] + [blocks[n]];
      if e.address.block == blocks[n] && e.address.index < |last| {
        assert last[e.address.index] in last;
      }
    }
  }

  lemma {:induction false} EntriesBlocks(bodies: map<H256, Body>, blocks: seq<H256>)
    requires forall h :: h in blocks ==> h in bodies
    ensures forall e :: e in Entries(bodies, blocks) ==> e.address.block in blocks
  {
    if blocks != [] {
      EntriesBlocks(bodies, blocks[..|blocks| - 1]);
    }
  }

  /** Positions in distinct blocks are distinct. */
  lemma {:induction false} EntriesNoOverlap(bodies: map<H256, Body>, blocks: seq<H256>)
    requires forall h :: h in blocks ==> h in bodies
    requires forall i, j :: 0 <= i < j < |blocks| ==> blocks[i] != blocks[j]
    ensures NoOverlap(Entries(bodies, blocks))
  {
    if blocks != [] {
      var n := |blocks| - 1;
      var front := Entries(bodies, blocks[..n]);
      EntriesNoOverlap(bodies, blocks[..n]);
      EntriesBlocks(bodies, blocks[..n]);
      assert forall i :: 0 <= i < |front| ==> front[i] in front;
    }
  }

  lemma {:induction false} TrackerConcat(a: seq<Entry>, b: seq<Entry>, t: H256)
    ensures TrackerList(a + b, t) == TrackerList(a, t) + TrackerList(b, t)
  {
    if b == [] {
      assert a + b == a;
    } else {
      assert (a + b)[..|a + b| - 1] == a + b[..|b| - 1];
      TrackerConcat(a, b[..|b| - 1], t);
    }
  }

  lemma {:induction false} TrackerMembers(es: seq<Entry>, t: H256, a: Address)
    ensures a in TrackerList(es, t) <==> exists e :: e in es && e.address == a && e.tx.tracker == Some(t)
  {
    if es != [] {
      var n := |es| - 1;
      TrackerMembers(es[..n], t, a);
      assert es == es[..n] + [es[n]];
    }
  }

  /** The lists of one tracker on two stretches of a branch share no position. */
  lemma TrackerDisjoint(a: seq<Entry>, b: seq<Entry>, t: H256)
    requires NoOverlap(a + b)
    ensures forall x :: x in TrackerList(a, t) ==> x !in TrackerList(b, t)
    ensures forall x :: x in TrackerList(b, t) ==> x !in TrackerList(a, t)
  {
    forall i, j | 0 <= i < |a| && 0 <= j < |b| ensures a[i].address != b[j].address {
      assert (a + b)[i] == a[i] && (a + b)[|a| + j] == b[j];
    }
    forall x | x in TrackerList(a, t) ensures x !in TrackerList(b, t) {
      TrackerMembers(a, t, x);
      TrackerMembers(b, t, x);
    }
  }

  /** Taking the retracted stretch off the list and putting the enacted one on gives the list of
      the new branch. `gone` may list the retracted positions in any order. */
  lemma TrackerTurns(base: seq<Entry>, ret: seq<Entry>, add: seq<Entry>, t: H256, gone: seq<Address>)
    requires NoOverlap(base + ret) && NoOverlap(base + add)
    requires forall x :: x in gone <==> x in TrackerList(ret, t)
    ensures AddAddresses(SubAddresses(TrackerList(base + ret, t), gone), TrackerList(add, t)) == TrackerList(base + add, t)
  {
    TrackerConcat(base, ret, t);
    TrackerConcat(base, add, t);
    TrackerDisjoint(base, ret, t);
    TrackerDisjoint(base, add, t);
    WithoutConcat(TrackerList(base, t), TrackerList(ret, t), gone);
    WithoutDisjoint(TrackerList(base, t), gone);
    WithoutAll(TrackerList(ret, t), gone);
    assert TrackerList(base, t) + [] == TrackerList(base, t);
    WithoutDisjoint(TrackerList(add, t), TrackerList(base, t));
  }

  function GetAddresses(trackers: map<H256, seq<Address>>, t: H256): seq<Address> {
    if t in trackers then trackers[t] else []
  }

  function Present(a: seq<Address>): Option<seq<Address>> {
    if a == [] then None else Some(a)
  }

  /** The entries written for the tracker index: for every tracker that the change touches, its list
      without the retracted positions and with the enacted ones, or its removal. */
  ghost predicate TrackerEntries(values: map<H256, Option<seq<Address>>>, trackers: map<H256, seq<Address>>,
                                 gone: seq<Entry>, add: seq<Entry>)
  {
    && (forall t :: t in values <==> TrackerList(gone, t) != [] || TrackerList(add, t) != [])
    && (forall t :: t in values ==>
          values[t] == Present(AddAddresses(SubAddresses(GetAddresses(trackers, t), TrackerList(gone, t)), TrackerList(add, t))))
  }

  /** Assembling the tracker entries from the grouped positions. */
  lemma GroupedEntries(values: map<H256, Option<seq<Address>>>, trackers: map<H256, seq<Address>>, gone: seq<Entry>, add: seq<Entry>,
                       removed: map<H256, seq<Address>>, added: map<H256, seq<Address>>)
    requires IsTrackerIndex(removed, gone) && IsTrackerIndex(added, add)
    requires values.Keys == added.Keys + removed.Keys
    requires forall t :: t in values ==>
               values[t] == Present(AddAddresses(SubAddresses(GetAddresses(trackers, t), GetAddresses(removed, t)), GetAddresses(added, t)))
    ensures TrackerEntries(values, trackers, gone, add)
  {
    hide TrackerList, AddAddresses, SubAddresses, Present;
  }

  lemma SameTrackerMembers(gone: seq<Entry>, ret: seq<Entry>, t: H256)
    requires forall e :: e in gone <==> e in ret
    ensures forall x :: x in TrackerList(gone, t) <==> x in TrackerList(ret, t)
  {
    forall x ensures x in TrackerList(gone, t) <==> x in TrackerList(ret, t) {
      TrackerMembers(gone, t, x);
      TrackerMembers(ret, t, x);
    }
  }

  lemma EmptyTogether(a: seq<Address>, b: seq<Address>)
    requires forall x :: x in a <==> x in b
    ensures a == [] <==> b == []
  {
    if a != [] { assert a[0] in a; }
    if b != [] { assert b[0] in b; }
  }

  /** Patching the tracker index of a branch with the entries of a change gives that of the new branch. */
  lemma TrackerIndexTurns(base: seq<Entry>, ret: seq<Entry>, gone: seq<Entry>, add: seq<Entry>,
                          trackers: map<H256, seq<Address>>, values: map<H256, Option<seq<Address>>>)
    requires NoOverlap(base + ret) && NoOverlap(base + add)
    requires forall e :: e in gone <==> e in ret
    requires IsTrackerIndex(trackers, base + ret) && TrackerEntries(values, trackers, gone, add)
    ensures IsTrackerIndex(Patch(trackers, values), base + add)
  {
    var patched := Patch(trackers, values);
    forall t ensures if t in patched then patched[t] == TrackerList(base + add, t) != [] else TrackerList(base + add, t) == [] {
      SameTrackerMembers(gone, ret, t);
      assert GetAddresses(trackers, t) == TrackerList(base + ret, t);
      TrackerTurns(base, ret, add, t, TrackerList(gone, t));
      if t !in values {
        EmptyTogether(TrackerList(gone, t), TrackerList(ret, t));
        TrackerConcat(base, ret, t);
        TrackerConcat(base, add, t);
      }
    }
  }

  // ----- the hash index -----

  /** The entries written for the hash index: nothing for the retracted transactions, then the
      positions of the enacted ones, the later entry winning. */
  function ParcelEntries(ret: seq<Entry>, add: seq<Entry>): map<H256, Option<Address>> {
    if add != [] then ParcelEntries(ret, add[..|add| - 1])[add[|add| - 1].tx.hash := Some(add[|add| - 1].address)]
    else if ret != [] then ParcelEntries(ret[..|ret| - 1], [])[ret[|ret| - 1].tx.hash := None]
    else map[]
  }

  lemma {:induction false} ParcelEntriesKeys(ret: seq<Entry>, add: seq<Entry>, h: H256)
    ensures h in ParcelEntries(ret, add) <==> (exists e :: e in ret && e.tx.hash == h) || (exists e :: e in add && e.tx.hash == h)
    ensures h in ParcelEntries(ret, add) ==> (ParcelEntries(ret, add)[h].Some? <==> exists e :: e in add && e.tx.hash == h)
    decreases |ret| + |add|
  {
    if add != [] {
      ParcelEntriesKeys(ret, add[..|add| - 1], h);
      assert add == add[..|add| - 1] + [add[|add| - 1]];
    } else if ret != [] {
      ParcelEntriesKeys(ret[..|ret| - 1], [], h);
      assert ret == ret[..|ret| - 1] + [ret[|ret| - 1]];
    }
  }

  lemma {:induction false} ParcelEntriesValue(ret: seq<Entry>, add: seq<Entry>, i: nat)
    requires NoRepeat(add) && i < |add|
    ensures add[i].tx.hash in ParcelEntries(ret, add)
    ensures ParcelEntries(ret, add)[add[i].tx.hash] == Some(add[i].address)
    decreases |add|
  {
    if i < |add| - 1 {
      ParcelEntriesValue(ret, add[..|add| - 1], i);
    }
  }

  /** Patching the hash index of a branch with the entries of a change gives that of the new branch.
      `gone` lists the retracted entries in any order. */
  lemma ParcelTurns(base: seq<Entry>, ret: seq<Entry>, gone: seq<Entry>, add: seq<Entry>, parcels: map<H256, Address>)
    requires NoRepeat(base + ret) && NoRepeat(base + add)
    requires forall e :: e in gone <==> e in ret
    requires IsParcelIndex(parcels, base + ret)
    ensures IsParcelIndex(Patch(parcels, ParcelEntries(gone, add)), base + add)
  {
    var values := ParcelEntries(gone, add);
    var patched := Patch(parcels, values);
    forall i | 0 <= i < |base + add|
      ensures (base + add)[i].tx.hash in patched && patched[(base + add)[i].tx.hash] == (base + add)[i].address
    {
      if i < |base| {
        BaseKept(base, ret, gone, add, i);
        assert (base + ret)[i] == base[i];
      } else {
        NoRepeatSuffix(base, add);
        ParcelEntriesValue(gone, add, i - |base|);
      }
    }
    forall h | h in patched ensures exists i :: 0 <= i < |base + add| && (base + add)[i].tx.hash == h {
      ParcelEntriesKeys(gone, add, h);
      if h in values {
        var e :| e in add && e.tx.hash == h;
        var j :| 0 <= j < |add| && add[j] == e;
        assert (base + add)[|base| + j] == e;
      } else {
        OnlyBaseLeft(base, ret, gone, add, parcels, h);
      }
    }
  }

  lemma NoRepeatSuffix(a: seq<Entry>, b: seq<Entry>)
    requires NoRepeat(a + b)
    ensures NoRepeat(b)
  {
    forall i, j | 0 <= i < j < |b| ensures b[i].tx.hash != b[j].tx.hash {
      assert (a + b)[|a| + i] == b[i] && (a + b)[|a| + j] == b[j];
    }
  }

  lemma BaseKept(base: seq<Entry>, ret: seq<Entry>, gone: seq<Entry>, add: seq<Entry>, i: nat)
    requires NoRepeat(base + ret) && NoRepeat(base + add) && i < |base|
    requires forall e :: e in gone <==> e in ret
    ensures base[i].tx.hash !in ParcelEntries(gone, add)
  {
    ParcelEntriesKeys(gone, add, base[i].tx.hash);
    forall e | e in ret ensures e.tx.hash != base[i].tx.hash {
      var j :| 0 <= j < |ret| && ret[j] == e;
      assert (base + ret)[|base| + j] == e && (base + ret)[i] == base[i];
    }
    forall e | e in add ensures e.tx.hash != base[i].tx.hash {
      var j :| 0 <= j < |add| && add[j] == e;
      assert (base + add)[|base| + j] == e && (base + add)[i] == base[i];
    }
  }

  lemma OnlyBaseLeft(base: seq<Entry>, ret: seq<Entry>, gone: seq<Entry>, add: seq<Entry>, parcels: map<H256, Address>, h: H256)
    requires IsParcelIndex(parcels, base + ret) && h in parcels && h !in ParcelEntries(gone, add)
    requires forall e :: e in gone <==> e in ret
    ensures exists i :: 0 <= i < |base + add| && (base + add)[i].tx.hash == h
  {
    var i :| 0 <= i < |base + ret| && (base + ret)[i].tx.hash == h;
    ParcelEntriesKeys(gone, add, h);
    assert (base + ret)[i] in base + ret;
    if (base + ret)[i] in base {
      var j :| 0 <= j < |base| && base[j] == (base + ret)[i];
      assert (base + add)[j] == base[j];
    }
  }
}
