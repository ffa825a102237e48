/** The key-value database, its write batches and the read-through caches
    (core/src/db.rs, core/src/blockchain/extras.rs). */
module Database {
  import opened Prelude
  import opened HeaderTree

  datatype BlockDetails = Details(number: nat, totalScore: nat, parent: H256)

  datatype Transaction = Transaction(hash: H256, tracker: Option<H256>)

  type Body = seq<Transaction>

  /** Position of a transaction inside a block. */
  datatype Address = Address(block: H256, index: nat)

  /** The header columns. `numbers` is keyed by the 32 bits that the database key keeps of a block number. */
  datatype HeaderColumns = HeaderColumns(
    headers: Headers,
    details: map<H256, BlockDetails>,
    numbers: map<nat, H256>,
    bestHeader: Option<H256>,
    bestProposalHeader: Option<H256>)

  /** The body columns: bodies, the transaction-hash index, the tracker index and the best block. */
  datatype BodyColumns = BodyColumns(
    bodies: map<H256, Body>,
    parcels: map<H256, Address>,
    trackers: map<H256, seq<Address>>,
    bestBlock: Option<H256>,
    bestProposalBlock: Option<H256>)

  datatype Store = Store(head: HeaderColumns, body: BodyColumns)

  datatype HeaderWrite =
    | PutHeader(header: Header)
    | PutDetails(hash: H256, details: BlockDetails)
    | PutNumber(number: nat, hash: H256)
    | PutBestHeader(hash: H256)
    | PutBestProposalHeader(hash: H256)

  datatype BodyWrite =
    | PutBody(hash: H256, body: Body)
    | PutParcel(hash: H256, address: Address)
    | DeleteParcel(hash: H256)
    | PutTracker(hash: H256, addresses: seq<Address>)
    | DeleteTracker(hash: H256)
    | PutBestBlock(hash: H256)
    | PutBestProposalBlock(hash: H256)

  datatype Write = ToHead(h: HeaderWrite) | ToBody(b: BodyWrite)

  /** The database key of a block number keeps four bytes of it. */
  function NumberKey(n: nat): nat { n % NUMBER_LIMIT }

  function ApplyHead(s: HeaderColumns, w: HeaderWrite): HeaderColumns {
    match w
    case PutHeader(x) => s.(headers := s.headers[x.hash := x])
    case PutDetails(h, d) => s.(details := s.details[h := d])
    case PutNumber(n, h) => s.(numbers := s.numbers[NumberKey(n) := h])
    case PutBestHeader(h) => s.(bestHeader := Some(h))
    case PutBestProposalHeader(h) => s.(bestProposalHeader := Some(h))
  }

  function ApplyBody(s: BodyColumns, w: BodyWrite): BodyColumns {
    match w
    case PutBody(h, b) => s.(bodies := s.bodies[h := b])
    case PutParcel(h, a) => s.(parcels := s.parcels[h := a])
    case DeleteParcel(h) => s.(parcels := s.parcels - {h})
    case PutTracker(h, a) => s.(trackers := s.trackers[h := a])
    case DeleteTracker(h) => s.(trackers := s.trackers - {h})
    case PutBestBlock(h) => s.(bestBlock := Some(h))
    case PutBestProposalBlock(h) => s.(bestProposalBlock := Some(h))
  }

  function ApplyWrite(s: Store, w: Write): Store {
    match w
    case ToHead(h) => s.(head := ApplyHead(s.head, h))
    case ToBody(b) => s.(body := ApplyBody(s.body, b))
  }

  type Batch = Log<Write>

  /** A batch takes effect write by write, in order. */
  function ApplyBatch(s: Store, batch: Batch): Store {
    match batch
    case Empty => s
    case Push(init, w) => ApplyWrite(ApplyBatch(s, init), w)
  }

  lemma ApplyPush(s: Store, batch: Batch, w: Write)
    ensures ApplyBatch(s, Push(batch, w)) == ApplyWrite(ApplyBatch(s, batch), w)
  {
  }

  lemma ApplyNothing(s: Store)
    ensures ApplyBatch(s, Empty) == s
  {
  }

  class Database {
    var store: Store

    constructor (initial: Store)
      ensures store == initial
    {
      store := initial;
    }

    method Write(batch: Batch)
      modifies this
      ensures store == ApplyBatch(old(store), batch)
    {
      store := ApplyBatch(store, batch);
    }
  }

  // ----- caches -----

  function Lookup<K, V>(column: map<K, V>, k: K): Option<V> {
    if k in column then Some(column[k]) else None
  }

  /** A coherent cache is invisible: the answer is the database's, and the cache stays coherent.
      `key` is the database key of `k`; the cache itself is keyed by `k`. */
  method ReadWithCache<K, V>(column: map<K, V>, cache: map<K, V>, k: K, key: K) returns (r: Option<V>, cache': map<K, V>)
    requires SubMap(cache, column) && key == k
    ensures r == Lookup(column, k)
    ensures SubMap(cache', column) && cache'.Keys <= cache.Keys + {k}
  {
    cache' := cache;
    if k in cache {
      return Some(cache[k]), cache;
    }
    r := Lookup(column, key);
    if r.Some? {
      cache' := cache[k := r.value];
    }
  }

  /** What a listing of entries amounts to, the later entry winning. */
  function Collected<K, V>(entries: Log<(K, V)>): map<K, V> {
    match entries
    case Empty => map[]
    case Push(init, e) => Collected(init)[e.0 := e.1]
  }

  /** Overwrites the present values and removes the absent ones. */
  function Patch<K(!new), V>(m: map<K, V>, values: map<K, Option<V>>): (r: map<K, V>)
    ensures forall k :: k in r <==> if k in values then values[k].Some? else k in m
    ensures forall k :: k in r ==> r[k] == if k in values then values[k].value else m[k]
  {
    map k | k in m.Keys + values.Keys && (k in values ==> values[k].Some?)
      :: if k in values then values[k].value else m[k]
  }

  /** The part of `values` that has been visited when the keys in `rest` remain. */
  ghost function Visited<K, V>(values: map<K, V>, rest: set<K>): map<K, V> {
    map k | k in values && k !in rest :: values[k]
  }

  lemma VisitOne<K, V>(values: map<K, V>, rest: set<K>, k: K)
    requires k in rest && k in values
    ensures Visited(values, rest)[k := values[k]] == Visited(values, rest - {k})
  {
  }

  /** The batch that also writes the listed entries. */
  ghost function PutWrites<K, V>(batch: Batch, listing: Log<(K, V)>, put: (K, V) -> Write): Batch {
    match listing
    case Empty => batch
    case Push(init, e) => Push(PutWrites(batch, init, put), put(e.0, e.1))
  }

  /** The batch that also writes the listed entries, deleting those without a value. */
  ghost function OptionWrites<K, V>(batch: Batch, listing: Log<(K, Option<V>)>, put: (K, V) -> Write, delete: K -> Write): Batch {
    match listing
    case Empty => batch
    case Push(init, e) =>
      Push(OptionWrites(batch, init, put, delete), if e.1.Some? then put(e.0, e.1.value) else delete(e.0))
  }

  /** Writes the values and mirrors them in the pending cache. The listing is the order in
      which the values happened to be visited. */
  method ExtendWithCache<K, V>(batch: Batch, cache: map<K, V>, values: map<K, V>, put: (K, V) -> Write)
      returns (batch': Batch, cache': map<K, V>, ghost listing: Log<(K, V)>)
    ensures Collected(listing) == values
    ensures batch' == PutWrites(batch, listing, put)
    ensures cache' == cache + values
  {
    batch', cache', listing := batch, cache, Empty;
    var rest := values.Keys;
    while rest != {}
      invariant rest <= values.Keys
      invariant Collected(listing) == Visited(values, rest)
      invariant batch' == PutWrites(batch, listing, put)
      invariant cache' == cache + Visited(values, rest)
      decreases |rest|
    {
      var k :| k in rest;
      VisitOne(values, rest, k);
      batch' := Push(batch', put(k, values[k]));
      cache' := cache'[k := values[k]];
      listing := Push(listing, (k, values[k]));
      rest := rest - {k};
    }
    assert Visited(values, rest) == values;
  }

  /** As above, for values that may be removals. */
  method ExtendWithOptionCache<K, V>(batch: Batch, cache: map<K, Option<V>>, values: map<K, Option<V>>,
                                     put: (K, V) -> Write, delete: K -> Write)
      returns (batch': Batch, cache': map<K, Option<V>>, ghost listing: Log<(K, Option<V>)>)
    ensures Collected(listing) == values
    ensures batch' == OptionWrites(batch, listing, put, delete)
    ensures cache' == cache + values
  {
    batch', cache', listing := batch, cache, Empty;
    var rest := values.Keys;
    while rest != {}
      invariant rest <= values.Keys
      invariant Collected(listing) == Visited(values, rest)
      invariant batch' == OptionWrites(batch, listing, put, delete)
      invariant cache' == cache + Visited(values, rest)
      decreases |rest|
    {
      var k :| k in rest;
      VisitOne(values, rest, k);
      var value := values[k];
      match value {
        case Some(v) => batch' := Push(batch', put(k, v));
        case None => batch' := Push(batch', delete(k));
      }
      cache' := cache'[k := value];
      listing := Push(listing, (k, value));
      rest := rest - {k};
    }
    assert Visited(values, rest) == values;
  }
}
