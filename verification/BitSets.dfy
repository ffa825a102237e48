/** Sets of validator indices as bits of a fixed array (core/src/consensus/bit_set.rs). */
module BitSets {
  import opened Prelude

  const MAX_VALIDATOR_SIZE := 800
  const BITSET_SIZE := 100

  // ----- bits of a byte -----

  function Bit(i: nat): bv8
    requires i < 8
  {
    1 << i
  }

  predicate IsOn(v: bv8, i: nat)
    requires i < 8
  {
    v & Bit(i) != 0
  }

  lemma Bits()
    ensures Bit(0) == 1 && Bit(1) == 2 && Bit(2) == 4 && Bit(3) == 8 && Bit(4) == 16 && Bit(5) == 32 && Bit(6) == 64 && Bit(7) == 128
  {
  }

  function TurnOn(v: bv8, i: nat): bv8
    requires i < 8
  {
    v | Bit(i)
  }

  function TurnOff(v: bv8, i: nat): bv8
    requires i < 8
  {
    v & (0xff ^ Bit(i))
  }

  lemma TurnedOn(v: bv8, i: nat, j: nat)
    requires i < 8 && j < 8
    ensures IsOn(TurnOn(v, i), j) <==> i == j || IsOn(v, j)
  {
    hide Bit;
    Bits();
  }

  lemma TurnedOff(v: bv8, i: nat, j: nat)
    requires i < 8 && j < 8
    ensures IsOn(TurnOff(v, i), j) <==> i != j && IsOn(v, j)
  {
    hide Bit;
    Bits();
  }

  function Without(v: bv8, w: bv8): bv8 { v & !w }

  lemma BitsMinus(v: bv8, w: bv8, i: nat)
    requires i < 8
    ensures IsOn(Without(v, w), i) <==> IsOn(v, i) && !IsOn(w, i)
  {
    hide Bit;
    Bits();
  }

  function OnesBelow(v: bv8, n: nat): nat
    requires n <= 8
  {
    if n == 0 then 0 else OnesBelow(v, n - 1) + if IsOn(v, n - 1) then 1 else 0
  }

  // ----- bits of the whole array -----

  predicate InBits(bytes: seq<bv8>, i: nat)
    requires i < 8 * |bytes|
  {
    IsOn(bytes[i / 8], i % 8)
  }

  ghost function IndicesBelow(bytes: seq<bv8>, n: nat): set<nat>
    requires n <= 8 * |bytes|
  {
    set i | 0 <= i < n && InBits(bytes, i)
  }

  ghost function Indices(bytes: seq<bv8>): set<nat> { IndicesBelow(bytes, 8 * |bytes|) }

  lemma MoreIndices(bytes: seq<bv8>, n: nat)
    requires n < 8 * |bytes|
    ensures IndicesBelow(bytes, n + 1) == IndicesBelow(bytes, n) + if InBits(bytes, n) then {n} else {}
    ensures |IndicesBelow(bytes, n + 1)| == |IndicesBelow(bytes, n)| + if InBits(bytes, n) then 1 else 0
  {
  }

  /** Counting a byte's ones adds its eight indices. */
  lemma {:induction false} CountByte(bytes: seq<bv8>, k: nat, n: nat)
    requires k < |bytes| && n <= 8
    ensures |IndicesBelow(bytes, 8 * k + n)| == |IndicesBelow(bytes, 8 * k)| + OnesBelow(bytes[k], n)
  {
    hide IsOn, IndicesBelow;
    if n > 0 {
      CountByte(bytes, k, n - 1);
      MoreIndices(bytes, 8 * k + n - 1);
      assert (8 * k + n - 1) / 8 == k && (8 * k + n - 1) % 8 == n - 1;
    }
  }

  lemma IndicesChanged(bytes: seq<bv8>, k: nat, v: bv8, i: nat, on: bool)
    requires k < |bytes| && i < 8
    requires forall j :: 0 <= j < 8 ==> (IsOn(v, j) <==> if i == j then on else IsOn(bytes[k], j))
    ensures Indices(bytes[k := v]) == if on then Indices(bytes) + {8 * k + i} else Indices(bytes) - {8 * k + i}
  {
    var bytes' := bytes[k := v];
    forall n | 0 <= n < 8 * |bytes| ensures InBits(bytes', n) <==> if n == 8 * k + i then on else InBits(bytes, n) {
      assert n == 8 * (n / 8) + n % 8;
    }
  }

  /** Taking away the bits of each byte takes away the indices. */
  lemma IndicesMinus(a: seq<bv8>, b: seq<bv8>, c: seq<bv8>)
    requires |a| == |b| == |c| && forall k :: 0 <= k < |a| ==> c[k] == Without(a[k], b[k])
    ensures Indices(c) == Indices(a) - Indices(b)
  {
    hide IsOn, Without;
    forall i | 0 <= i < 8 * |a| ensures InBits(c, i) <==> InBits(a, i) && !InBits(b, i) {
      BitsMinus(a[i / 8], b[i / 8], i % 8);
    }
  }

  class BitSet {
    const bytes: array<bv8>

    constructor ()
      ensures Valid() && fresh(bytes) && Contents() == {}
    {
      bytes := new bv8[BITSET_SIZE](_ => 0);
      new;
      forall i | 0 <= i < 8 * BITSET_SIZE ensures !InBits(bytes[..], i) {
        assert bytes[..][i / 8] == 0;
      }
    }

    ghost predicate Valid() { bytes.Length == BITSET_SIZE }

    ghost function Contents(): set<nat>
      requires Valid()
      reads bytes
    {
      Indices(bytes[..])
    }

    method IsSet(index: nat) returns (r: bool)
      requires Valid() && index < MAX_VALIDATOR_SIZE
      ensures r <==> index in Contents()
    {
      var arrayIndex, bitIndex := index / 8, index % 8;
      r := IsOn(bytes[arrayIndex], bitIndex);
      assert r <==> InBits(bytes[..], index);
    }

    method Set(index: nat)
      requires Valid() && index < MAX_VALIDATOR_SIZE
      modifies bytes
      ensures Contents() == old(Contents()) + {index}
    {
      hide IsOn, TurnOn, TurnOff;
      var arrayIndex, bitIndex := index / 8, index % 8;
      ghost var before := bytes[..];
      forall j | 0 <= j < 8 {
        TurnedOn(bytes[arrayIndex], bitIndex, j);
      }
      bytes[arrayIndex] := TurnOn(bytes[arrayIndex], bitIndex);
      IndicesChanged(before, arrayIndex, bytes[arrayIndex], bitIndex, true);
      assert bytes[..] == before[arrayIndex := bytes[arrayIndex]];
    }

    method Reset(index: nat)
      requires Valid() && index < MAX_VALIDATOR_SIZE
      modifies bytes
      ensures Contents() == old(Contents()) - {index}
    {
      hide IsOn, TurnOn, TurnOff;
      var arrayIndex, bitIndex := index / 8, index % 8;
      ghost var before := bytes[..];
      forall j | 0 <= j < 8 {
        TurnedOff(bytes[arrayIndex], bitIndex, j);
      }
      bytes[arrayIndex] := TurnOff(bytes[arrayIndex], bitIndex);
      IndicesChanged(before, arrayIndex, bytes[arrayIndex], bitIndex, false);
      assert bytes[..] == before[arrayIndex := bytes[arrayIndex]];
    }

    method Count() returns (count: nat)
      requires Valid()
      ensures count == |Contents()|
    {
      count := 0;
      assert IndicesBelow(bytes[..], 0) == {};
      for k := 0 to bytes.Length
        invariant count == |IndicesBelow(bytes[..], 8 * k)|
      {
        CountByte(bytes[..], k, 8);
        count := count + OnesBelow(bytes[k], 8);
      }
    }

    method Sub(other: BitSet) returns (r: BitSet)
      requires Valid() && other.Valid()
      ensures r.Valid() && fresh(r) && fresh(r.bytes) && r.Contents() == Contents() - other.Contents()
    {
      hide Indices, Without;
      r := new BitSet();
      for k := 0 to BITSET_SIZE
        invariant forall j :: 0 <= j < k ==> r.bytes[j] == Without(bytes[j], other.bytes[j])
      {
        r.bytes[k] := Without(bytes[k], other.bytes[k]);
      }
      IndicesMinus(bytes[..], other.bytes[..], r.bytes[..]);
    }

    /** The iterator's step: the lowest index from `from` on. */
    method NextIndex(from: nat) returns (r: Option<nat>)
      requires Valid()
      ensures r.None? ==> forall i :: i in Contents() ==> i < from
      ensures r.Some? ==> r.value in Contents() && from <= r.value && forall i :: i in Contents() ==> i < from || r.value <= i
    {
      if from >= MAX_VALIDATOR_SIZE {
        return None;
      }
      var index := from;
      while true
        invariant from <= index < MAX_VALIDATOR_SIZE
        invariant forall i :: i in Contents() ==> i < from || index <= i
        decreases MAX_VALIDATOR_SIZE - index
      {
        var on := IsSet(index);
        if on {
          return Some(index);
        }
        index := index + 1;
        if index >= MAX_VALIDATOR_SIZE {
          return None;
        }
      }
    }
  }
}
