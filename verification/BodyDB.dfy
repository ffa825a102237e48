/** Block bodies and the transaction indexes (core/src/blockchain/body_db.rs). */
module BodyDB {
  import opened Prelude
  import opened HeaderTree
  import opened Database
  import opened Route
  import opened BodyIndex

  datatype Block = Block(header: Header, body: Body)

  function ParcelEntry(h: H256, a: Address): Write { ToBody(PutParcel(h, a)) }
  function ParcelRemoval(h: H256): Write { ToBody(DeleteParcel(h)) }
  function TrackerEntry(t: H256, a: seq<Address>): Write { ToBody(PutTracker(t, a)) }
  function TrackerRemoval(t: H256): Write { ToBody(DeleteTracker(t)) }

  lemma {:induction false} ParcelsApply(s: Store, batch: Batch, listing: Log<(H256, Option<Address>)>, t: BodyColumns)
    requires t == ApplyBatch(s, batch).body
    ensures ApplyBatch(s, OptionWrites(batch, listing, ParcelEntry, ParcelRemoval))
         == ApplyBatch(s, batch).(body := t.(parcels := Patch(t.parcels, Collected(listing))))
  {
    match listing
    case Empty =>
      assert Patch(t.parcels, map[]) == t.parcels;
    case Push(init, e) =>
      ParcelsApply(s, batch, init, t);
      PatchUpdate(t.parcels, Collected(init), e.0, e.1);
  }

  lemma {:induction false} TrackersApply(s: Store, batch: Batch, listing: Log<(H256, Option<seq<Address>>)>, t: BodyColumns)
    requires t == ApplyBatch(s, batch).body
    ensures ApplyBatch(s, OptionWrites(batch, listing, TrackerEntry, TrackerRemoval))
         == ApplyBatch(s, batch).(body := t.(trackers := Patch(t.trackers, Collected(listing))))
  {
    match listing
    case Empty =>
      assert Patch(t.trackers, map[]) == t.trackers;
    case Push(init, e) =>
      TrackersApply(s, batch, init, t);
      PatchUpdate(t.trackers, Collected(init), e.0, e.1);
  }

  lemma PatchUpdate<V>(m: map<H256, V>, values: map<H256, Option<V>>, k: H256, v: Option<V>)
    ensures v.Some? ==> Patch(m, values[k := v]) == Patch(m, values)[k := v.value]
    ensures v.None? ==> Patch(m, values[k := v]) == Patch(m, values) - {k}
  {
  }

  /** A cache patched like its column stays coherent. */
  lemma PatchCache<V>(cache: map<H256, V>, column: map<H256, V>, values: map<H256, Option<V>>)
    requires SubMap(cache, column)
    ensures SubMap(Patch(cache, values), Patch(column, values))
  {
  }

  /** The blocks whose transactions a change retracts, top first. */
  ghost function RetractedBlocks(change: BestChanged<Block>): seq<H256> {
    if change.BranchBecomingCanonChain? then change.route.retracted else []
  }

  /** The old blocks whose transactions a change enacts. */
  ghost function EnactedBlocks(change: BestChanged<Block>): seq<H256> {
    if change.BranchBecomingCanonChain? then change.route.enacted else []
  }

  ghost predicate BodiesStored(bodies: map<H256, Body>, change: BestChanged<Block>) {
    && (forall h :: h in RetractedBlocks(change) ==> h in bodies)
    && (forall h :: h in EnactedBlocks(change) ==> h in bodies)
  }

  ghost function Retracted(bodies: map<H256, Body>, change: BestChanged<Block>): seq<Entry>
    requires BodiesStored(bodies, change)
  {
    Entries(bodies, RetractedBlocks(change))
  }

  ghost function Enacted(bodies: map<H256, Body>, change: BestChanged<Block>): seq<Entry>
    requires BodiesStored(bodies, change)
  {
    if change.Unchanged? then []
    else Entries(bodies, EnactedBlocks(change)) + BlockEntries(change.best.header.hash, change.best.body)
  }

  function Updated(a: seq<Address>, b: seq<Address>, remove: bool): seq<Address> {
    if remove then SubAddresses(a, b) else AddAddresses(a, b)
  }

  class BodyDB {
    const db: Database
    var bodyCache: map<H256, Body>
    var parcelCache: map<H256, Address>
    var pendingParcels: map<H256, Option<Address>>
    var trackerCache: map<H256, seq<Address>>
    var pendingTrackers: map<H256, Option<seq<Address>>>

    ghost predicate NothingPending()
      reads this
    {
      pendingParcels == map[] && pendingTrackers == map[]
    }

    ghost predicate CachesAgree(s: BodyColumns)
      reads this
    {
      SubMap(bodyCache, s.bodies) && SubMap(parcelCache, s.parcels) && SubMap(trackerCache, s.trackers)
    }

    /** Opens the body database, storing the genesis body if it is not there. */
    constructor (genesis: Block, database: Database)
      modifies database
      ensures db == database && NothingPending() && CachesAgree(database.store.body)
      ensures genesis.header.hash in old(database.store).body.bodies ==> database.store == old(database.store)
      ensures genesis.header.hash !in old(database.store).body.bodies ==>
                database.store == ApplyWrite(old(database.store), ToBody(PutBody(genesis.header.hash, genesis.body)))
    {
      db := database;
      bodyCache, parcelCache, trackerCache := map[], map[], map[];
      pendingParcels, pendingTrackers := map[], map[];
      if genesis.header.hash !in database.store.body.bodies {
        database.Write(Push(Empty, ToBody(PutBody(genesis.header.hash, genesis.body))));
      }
    }

    method BlockBody(hash: H256) returns (r: Option<Body>)
      requires SubMap(bodyCache, db.store.body.bodies)
      modifies this`bodyCache
      ensures SubMap(bodyCache, db.store.body.bodies)
      ensures r == Lookup(db.store.body.bodies, hash)
    {
      r, bodyCache := ReadWithCache(db.store.body.bodies, bodyCache, hash, hash);
    }

    /** The transactions of the listed blocks. */
    method ReadEntries(blocks: seq<H256>) returns (es: seq<Entry>)
      requires SubMap(bodyCache, db.store.body.bodies)
      requires forall h :: h in blocks ==> h in db.store.body.bodies
      modifies this`bodyCache
      ensures SubMap(bodyCache, db.store.body.bodies)
      ensures es == Entries(db.store.body.bodies, blocks)
    {
      es := [];
      for i := 0 to |blocks|
        invariant SubMap(bodyCache, db.store.body.bodies)
        invariant es == Entries(db.store.body.bodies, blocks[..i])
      {
        assert blocks[..i + 1][..i] == blocks[..i];
        var body := BlockBody(blocks[i]);
        es := es + BlockEntries(blocks[i], body.value);
      }
      assert blocks[..|blocks|] == blocks;
    }

    /** Groups the positions by tracker. */
    static method GroupByTracker(es: seq<Entry>) returns (groups: map<H256, seq<Address>>)
      requires NoOverlap(es)
      ensures IsTrackerIndex(groups, es)
    {
      groups := map[];
      for i := 0 to |es|
        invariant IsTrackerIndex(groups, es[..i])
      {
        assert es[..i + 1][..i] == es[..i];
        match es[i].tx.tracker {
          case None =>
          case Some(t) =>
            Fresh(es, i, t);
            groups := groups[t := AddAddresses(GetAddresses(groups, t), [es[i].address])];
        }
      }
      assert es[..|es|] == es;
    }

    static lemma Fresh(es: seq<Entry>, i: nat, t: H256)
      requires NoOverlap(es) && i < |es|
      ensures Without([es[i].address], TrackerList(es[..i], t)) == [es[i].address]
    {
      TrackerMembers(es[..i], t, es[i].address);
      WithoutDisjoint([es[i].address], TrackerList(es[..i], t));
    }

    method NewTransactionAddressEntries(gone: seq<Entry>, add: seq<Entry>) returns (values: map<H256, Option<seq<Address>>>)
      requires NoOverlap(gone) && NoOverlap(add)
      ensures TrackerEntries(values, db.store.body.trackers, gone, add)
    {
      hide IsTrackerIndex, TrackerEntries, GetAddresses, SubAddresses, AddAddresses, Present, NoOverlap;
      var added := GroupByTracker(add);
      var removed := GroupByTracker(gone);
      var inserted := map t | t in added.Keys + removed.Keys :: GetAddresses(db.store.body.trackers, t);
      inserted := Combine(inserted, removed, true);
      inserted := Combine(inserted, added, false);
      values := map t | t in inserted :: Present(inserted[t]);
      GroupedEntries(values, db.store.body.trackers, gone, add, removed, added);
    }

    /** Updates the list of every tracker in `change`, in whatever order they are visited. */
    static method Combine(lists: map<H256, seq<Address>>, change: map<H256, seq<Address>>, remove: bool)
        returns (r: map<H256, seq<Address>>)
      requires change.Keys <= lists.Keys
      ensures r.Keys == lists.Keys
      ensures forall t :: t in lists ==> r[t] == Updated(lists[t], GetAddresses(change, t), remove)
    {
      r := lists;
      var rest := change.Keys;
      forall t | t in lists && t !in change ensures Updated(lists[t], [], remove) == lists[t] {
        NoChange(lists[t]);
      }
      while rest != {}
        invariant rest <= change.Keys
        invariant r.Keys == lists.Keys
        invariant forall t :: t in lists ==> r[t] == if t in rest then lists[t] else Updated(lists[t], GetAddresses(change, t), remove)
        decreases |rest|
      {
        var t :| t in rest;
        r := r[t := Updated(r[t], change[t], remove)];
        rest := rest - {t};
      }
    }

    method InsertBody(batch: Batch, block: Block) returns (batch': Batch)
      requires SubMap(bodyCache, db.store.body.bodies)
      modifies this`bodyCache
      ensures SubMap(bodyCache, db.store.body.bodies)
      ensures batch' == if block.header.hash in db.store.body.bodies then batch
                        else Push(batch, ToBody(PutBody(block.header.hash, block.body)))
    {
      var known := BlockBody(block.header.hash);
      if known.Some? {
        return batch;
      }
      return Push(batch, ToBody(PutBody(block.header.hash, block.body)));
    }

    /** Stages the index updates of a change of the best block. */
    method UpdateBestBlock(batch: Batch, change: BestChanged<Block>) returns (batch': Batch)
      requires SubMap(bodyCache, db.store.body.bodies) && NothingPending()
      requires BodiesStored(db.store.body.bodies, change)
      requires NoOverlap(Retracted(db.store.body.bodies, change)) && NoOverlap(Enacted(db.store.body.bodies, change))
      modifies this`bodyCache, this`pendingParcels, this`pendingTrackers
      ensures SubMap(bodyCache, db.store.body.bodies)
      ensures pendingParcels == ParcelEntries(Retracted(db.store.body.bodies, change), Enacted(db.store.body.bodies, change))
      ensures TrackerEntries(pendingTrackers, db.store.body.trackers,
                             Retracted(db.store.body.bodies, change), Enacted(db.store.body.bodies, change))
      ensures ApplyBatch(db.store, batch').head == ApplyBatch(db.store, batch).head
      ensures ApplyBatch(db.store, batch').body == Indexed(ApplyBatch(db.store, batch).body, pendingParcels, pendingTrackers)
    {
      hide ApplyBatch, NoOverlap, ParcelEntries, TrackerEntries, Patch, Collected, OptionWrites, SubMap;
      var gone, add := ReadChange(change);
      ghost var listing, listing';
      var values := NewTransactionAddressEntries(gone, add);
      batch', pendingParcels, listing := ExtendWithOptionCache(batch, pendingParcels, ParcelEntries(gone, add), ParcelEntry, ParcelRemoval);
      ParcelsApply(db.store, batch, listing, ApplyBatch(db.store, batch).body);
      ghost var batch0 := batch';
      batch', pendingTrackers, listing' := ExtendWithOptionCache(batch', pendingTrackers, values, TrackerEntry, TrackerRemoval);
      TrackersApply(db.store, batch0, listing', ApplyBatch(db.store, batch0).body);
      assert pendingTrackers == values && pendingParcels == ParcelEntries(gone, add);
    }

    /** The retracted and the enacted transactions of a change. */
    method ReadChange(change: BestChanged<Block>) returns (gone: seq<Entry>, add: seq<Entry>)
      requires SubMap(bodyCache, db.store.body.bodies)
      requires BodiesStored(db.store.body.bodies, change)
      modifies this`bodyCache
      ensures SubMap(bodyCache, db.store.body.bodies)
      ensures gone == Retracted(db.store.body.bodies, change) && add == Enacted(db.store.body.bodies, change)
    {
      match change {
        case Unchanged =>
          gone, add := [], [];
        case CanonChainAppended(best) =>
          gone, add := [], BlockEntries(best.header.hash, best.body);
        case BranchBecomingCanonChain(best, route) =>
          add := ReadEntries(route.enacted);
          add := add + BlockEntries(best.header.hash, best.body);
          gone := ReadEntries(route.retracted);
      }
    }

    /** Makes the staged index updates visible. */
    method Commit()
      modifies this`parcelCache, this`trackerCache, this`pendingParcels, this`pendingTrackers
      ensures NothingPending()
      ensures parcelCache == Patch(old(parcelCache), old(pendingParcels))
      ensures trackerCache == Patch(old(trackerCache), old(pendingTrackers))
    {
      parcelCache, pendingParcels := CommitCache(parcelCache, pendingParcels), map[];
      trackerCache, pendingTrackers := CommitCache(trackerCache, pendingTrackers), map[];
    }

    /** The position of a transaction according to the hash index. */
    method TransactionAddress(hash: H256) returns (r: Option<Address>)
      requires SubMap(parcelCache, db.store.body.parcels)
      modifies this`parcelCache
      ensures SubMap(parcelCache, db.store.body.parcels)
      ensures r == Lookup(db.store.body.parcels, hash)
    {
      r, parcelCache := ReadWithCache(db.store.body.parcels, parcelCache, hash, hash);
    }

    /** The first position listed under a tracker. */
    method TransactionAddressByTracker(tracker: H256) returns (r: Option<Address>)
      requires SubMap(trackerCache, db.store.body.trackers)
      modifies this`trackerCache
      ensures SubMap(trackerCache, db.store.body.trackers)
      ensures r == if tracker in db.store.body.trackers && db.store.body.trackers[tracker] != []
                   then Some(db.store.body.trackers[tracker][0]) else None
    {
      var addresses;
      addresses, trackerCache := ReadWithCache(db.store.body.trackers, trackerCache, tracker, tracker);
      if addresses.None? || addresses.value == [] {
        return None;
      }
      return Some(addresses.value[0]);
    }
  }

  /** The body columns with patched indexes. */
  ghost function Indexed(t: BodyColumns, parcels: map<H256, Option<Address>>, trackers: map<H256, Option<seq<Address>>>): BodyColumns {
    t.(parcels := Patch(t.parcels, parcels), trackers := Patch(t.trackers, trackers))
  }

  /** First the entries with a value overwrite the cache, then those without one leave it. */
  function CommitCache<V>(cache: map<H256, V>, pending: map<H256, Option<V>>): (r: map<H256, V>)
    ensures r == Patch(cache, pending)
  {
    var added := map k | k in pending && pending[k].Some? :: pending[k].value;
    var removed := set k | k in pending && pending[k].None?;
    (cache + added) - removed
  }
}
