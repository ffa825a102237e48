/** Transactions, their order in the queues and the queues themselves
    (core/src/miner/mem_pool_types.rs). */
module PoolTypes {
  import opened Prelude

  type Public = nat

  datatype TxOrigin = Local | External | RetractedBlock {
    predicate IsLocalOrRetracted() { Local? || RetractedBlock? }
  }

  datatype Timelock = Timelock(block: Option<nat>, timestamp: Option<nat>)

  datatype Action = Pay(quantity: nat) | WrapCCC(quantity: nat) | TransferAsset(expiration: Option<nat>) | OtherAction

  /** A signed transaction: `size` is the length of its encoding. */
  datatype Tx = Tx(hash: H256, signer: Public, seqNo: nat, fee: nat, size: Positive, action: Action)

  /** The place of a transaction in the pool: one per signer and seq. */
  datatype Slot = Slot(signer: Public, seqNo: nat)

  datatype Item = Item(tx: Tx, origin: TxOrigin, block: nat, timestamp: nat, id: nat, timelock: Timelock) {
    function Cost(): nat {
      match tx.action
      case Pay(quantity) => tx.fee + quantity
      case WrapCCC(quantity) => tx.fee + quantity
      case _ => tx.fee
    }

    function Expiration(): Option<nat> {
      if tx.action.TransferAsset? then tx.action.expiration else None
    }
  }

  function SlotOf(item: Item): Slot { Slot(item.tx.signer, item.tx.seqNo) }

  datatype Order = Order(height: nat, fee: nat, feePerByte: nat, memUsage: nat, hash: H256, id: nat,
                         origin: TxOrigin, timelock: Timelock)
  {
    function UpdateHeight(seqNo: nat, base: nat): Order
      requires base <= seqNo
    {
      this.(height := seqNo - base)
    }

    function ChangeOrigin(o: TxOrigin): Order { this.(origin := o) }
  }

  function ForTransaction(item: Item, accountSeq: nat): Order
    requires accountSeq <= item.tx.seqNo
  {
    Order(item.tx.seqNo - accountSeq, item.tx.fee, item.tx.fee / item.tx.size, item.tx.size, item.tx.hash, item.id,
          item.origin, item.timelock)
  }

  datatype QueueTag = Current | Future | New

  datatype Tagged = Tagged(order: Order, tag: QueueTag)

  datatype Account = Account(seqNo: nat, balance: nat)

  // ----- comparison -----

  datatype Ordering = Less | Equal | Greater {
    function Then(next: Ordering): Ordering { if Equal? then next else this }
    function Flip(): Ordering { match this case Less => Greater case Equal => Equal case Greater => Less }
  }

  function CmpNat(a: nat, b: nat): Ordering {
    if a < b then Less else if a == b then Equal else Greater
  }

  function CmpOption(a: Option<nat>, b: Option<nat>): Ordering {
    match (a, b)
    case (None, None) => Equal
    case (None, Some(_)) => Less
    case (Some(_), None) => Greater
    case (Some(x), Some(y)) => CmpNat(x, y)
  }

  function CmpTimelock(a: Timelock, b: Timelock): Ordering {
    CmpOption(a.block, b.block).Then(CmpOption(a.timestamp, b.timestamp))
  }

  function CmpOrigin(a: TxOrigin, b: TxOrigin): Ordering {
    if a == b then Equal
    else match (a, b)
         case (RetractedBlock, _) => Less
         case (_, RetractedBlock) => Greater
         case (Local, _) => Less
         case _ => Greater
  }

  /** The queue order: origin, height, fee per byte, higher fee first, timelock, insertion id. */
  function Cmp(a: Order, b: Order): Ordering {
    if a.origin != b.origin then CmpOrigin(a.origin, b.origin)
    else if a.height != b.height then CmpNat(a.height, b.height)
    else if a.feePerByte != b.feePerByte then CmpNat(a.feePerByte, b.feePerByte)
    else if a.fee != b.fee then CmpNat(b.fee, a.fee)
    else if a.timelock != b.timelock then CmpTimelock(a.timelock, b.timelock)
    else CmpNat(a.id, b.id)
  }

  predicate SortsBefore(a: Order, b: Order) { Cmp(a, b) == Less }

  /** Retracted transactions sort before local ones, and these before external ones. */
  function Rank(o: TxOrigin): nat { match o case RetractedBlock => 0 case Local => 1 case External => 2 }

  /** An earlier lock: no lock on the block number before any, and then the same for the timestamp. */
  predicate LocksBefore(a: Timelock, b: Timelock) {
    if a.block != b.block then b.block.Some? && (a.block.None? || a.block.value < b.block.value)
    else a.timestamp != b.timestamp && b.timestamp.Some? && (a.timestamp.None? || a.timestamp.value < b.timestamp.value)
  }

  /** What sorts first: by origin; then the lower height; then the lower fee per byte; then the higher fee; then the earlier
      lock; then the lower id. */
  lemma OrderInWords(a: Order, b: Order)
    ensures SortsBefore(a, b) <==>
              || Rank(a.origin) < Rank(b.origin)
              || (a.origin == b.origin && a.height < b.height)
              || (a.origin == b.origin && a.height == b.height && a.feePerByte < b.feePerByte)
              || (a.origin == b.origin && a.height == b.height && a.feePerByte == b.feePerByte && a.fee > b.fee)
              || (a.origin == b.origin && a.height == b.height && a.feePerByte == b.feePerByte && a.fee == b.fee
                  && (LocksBefore(a.timelock, b.timelock) || (a.timelock == b.timelock && a.id < b.id)))
  {
  }

  /** Comparison is antisymmetric, and equal only on orders that agree in all compared fields. */
  lemma CmpAntisymmetric(a: Order, b: Order)
    ensures Cmp(b, a) == Cmp(a, b).Flip()
    ensures Cmp(a, b) == Equal ==> a == b.(memUsage := a.memUsage, hash := a.hash)
    ensures Cmp(a, a) == Equal
  {
  }

  lemma CmpTimelockTransitive(a: Timelock, b: Timelock, c: Timelock)
    requires CmpTimelock(a, b) != Greater && CmpTimelock(b, c) != Greater
    ensures CmpTimelock(a, c) != Greater
    ensures CmpTimelock(a, c) == Equal ==> CmpTimelock(a, b) == Equal && CmpTimelock(b, c) == Equal
    ensures CmpTimelock(a, b) == Equal <==> a == b
    ensures CmpTimelock(b, c) == Equal <==> b == c
  {
  }

  lemma CmpTransitive(a: Order, b: Order, c: Order)
    requires Cmp(a, b) == Less && Cmp(b, c) == Less
    ensures Cmp(a, c) == Less
  {
    if a.origin == b.origin == c.origin && a.height == b.height == c.height && a.feePerByte == b.feePerByte == c.feePerByte
       && a.fee == b.fee == c.fee {
      CmpTimelockTransitive(a.timelock, b.timelock, c.timelock);
    }
  }

  /** Among orders of one origin, a lower height sorts first: a signer's transactions run in seq order. */
  lemma HeightDecides(a: Order, b: Order)
    requires a.origin == b.origin && a.height < b.height
    ensures SortsBefore(a, b)
  {
  }
}
