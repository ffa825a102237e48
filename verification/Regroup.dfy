/** Regrouping bits for Bech32 addresses (key/src/platform_address.rs; section 'Segwit address format' of
    BIP-0173, with the padding kept). */
module Regroup {

  function Pow2(n: nat): (p: nat)
    ensures p > 0
  {
    if n == 0 then 1 else 2 * Pow2(n - 1)
  }

  lemma {:induction false} Pow2Add(a: nat, b: nat)
    ensures Pow2(a + b) == Pow2(a) * Pow2(b)
  {
    if a > 0 {
      Pow2Add(a - 1, b);
    }
  }

  // ----- shifting and masking -----

  function Shl(v: nat, k: nat): nat { v * Pow2(k) }

  function Quotient(v: nat, p: nat): nat
    requires p > 0
  {
    v / p
  }

  function Shr(v: nat, k: nat): nat { Quotient(v, Pow2(k)) }

  /** The lowest `k` bits. */
  function Low(v: nat, k: nat): (r: nat)
    ensures r < Pow2(k)
  {
    v % Pow2(k)
  }

  lemma ShlTwice(v: nat, i: nat, j: nat)
    ensures Shl(Shl(v, i), j) == Shl(v, i + j)
  {
    Pow2Add(i, j);
    Assoc(v, Pow2(i), Pow2(j));
  }

  lemma Assoc(a: nat, b: nat, c: nat)
    ensures (a * b) * c == a * (b * c)
  {
  }

  lemma ShlSum(v: nat, w: nat, k: nat)
    ensures Shl(v + w, k) == Shl(v, k) + Shl(w, k)
  {
  }

  lemma ShlNothing(v: nat)
    ensures Shl(v, 0) == v && Shr(v, 0) == v
  {
  }

  lemma MulLe(a: nat, b: nat, p: nat)
    requires a <= b
    ensures a * p <= b * p
  {
    assert 0 <= (b - a) * p == b * p - a * p;
  }

  lemma UniqueQuotient(p: nat, a: nat, b: nat, c: nat, d: nat)
    requires a * p + b == c * p + d && b < p && d < p
    ensures a == c && b == d
  {
    assert (a + 1) * p == a * p + p && (c + 1) * p == c * p + p;
    if a < c {
      MulLe(a + 1, c, p);
    } else if c < a {
      MulLe(c + 1, a, p);
    }
  }

  lemma DivMod(v: nat, p: nat, a: nat, b: nat)
    requires v == a * p + b && b < p
    ensures v / p == a && v % p == b
  {
    UniqueQuotient(p, v / p, v % p, a, b);
  }

  lemma ShrIs(v: nat, k: nat, high: nat, low: nat)
    requires v == Shl(high, k) + low && low < Pow2(k)
    ensures Shr(v, k) == high && Low(v, k) == low
  {
    DivMod(v, Pow2(k), high, low);
  }

  lemma Cut(v: nat, k: nat)
    ensures v == Shl(Shr(v, k), k) + Low(v, k)
  {
  }

  /** A chunk of `m` bits, shifted by `k`, fits into `k + m` bits and leaves the lowest `k` free. */
  lemma ShlFits(v: nat, m: nat, k: nat)
    requires v < Pow2(m)
    ensures Shl(v, k) + Pow2(k) <= Pow2(m + k)
  {
    Pow2Add(m, k);
    MulLe(v + 1, Pow2(m), Pow2(k));
    assert (v + 1) * Pow2(k) == v * Pow2(k) + Pow2(k);
  }

  /** Reading `m` more bits of a value appends them to those already read. */
  lemma ReadMore(v: nat, low: nat, m: nat)
    ensures Shr(v, low) == Shl(Shr(v, low + m), m) + Low(Shr(v, low), m)
  {
    hide Shl, Shr, Low, Pow2;
    var a := Shr(v, low);
    var c, d, b := Shr(a, m), Low(a, m), Low(v, low);
    Cut(v, low);
    Cut(a, m);
    ShlSum(Shl(c, m), d, low);
    ShlTwice(c, m, low);
    ShlFits(d, m, low);
    ShrIs(v, low + m, c, Shl(d, low) + b);
  }

  // ----- bit strings -----

  /** The groups, `width` bits each, read as one long number. Together with their number it tells the bit
      string they make up. */
  ghost function Value(groups: seq<nat>, width: nat): nat {
    if groups == [] then 0 else Shl(Value(groups[..|groups| - 1], width), width) + groups[|groups| - 1]
  }

  predicate InWidth(groups: seq<nat>, width: nat) { forall i :: 0 <= i < |groups| ==> groups[i] < Pow2(width) }

  lemma ValuePush(groups: seq<nat>, width: nat, g: nat)
    ensures Value(groups + [g], width) == Shl(Value(groups, width), width) + g
  {
    assert (groups + [g])[..|groups|] == groups;
  }

  /** Changing the last group. */
  lemma ValueLast(groups: seq<nat>, width: nat, g: nat)
    requires groups != []
    ensures Value(groups[|groups| - 1 := g], width) + groups[|groups| - 1] == Value(groups, width) + g
  {
    hide Shl;
    var n := |groups| - 1;
    assert groups[n := g][..n] == groups[..n];
  }

  lemma ValueSplit(groups: seq<nat>, width: nat)
    requires groups != []
    ensures Value(groups, width) == Shl(Value(groups[..|groups| - 1], width), width) + groups[|groups| - 1]
  {
  }

  /** Groups of the same width and number are told apart by their value. */
  lemma {:induction false} ValueDecides(a: seq<nat>, b: seq<nat>, width: nat)
    requires |a| == |b| && InWidth(a, width) && InWidth(b, width) && Value(a, width) == Value(b, width)
    ensures a == b
    decreases |a|
  {
    hide Value, Pow2, Shl, Shr, Low;
    if a != [] {
      var n := |a| - 1;
      ValueSplit(a, width);
      ValueSplit(b, width);
      ShrIs(Value(a, width), width, Value(a[..n], width), a[n]);
      ShrIs(Value(a, width), width, Value(b[..n], width), b[n]);
      ValueDecides(a[..n], b[..n], width);
      assert a == a[..n] + [a[n]] && b == b[..n] + [b[n]];
    }
  }

  /** What the bits taken so far make up: all of the first `i` values and the upper bits of the next one,
      `left` of which are still to come. */
  ghost function Taken(data: seq<nat>, i: nat, left: nat, from: nat): nat
    requires i < |data| && left <= from
  {
    Shl(Value(data[..i], from), from - left) + Shr(data[i], left)
  }

  lemma TakenStart(data: seq<nat>, i: nat, from: nat)
    requires i < |data| && InWidth(data, from)
    ensures Taken(data, i, from, from) == Value(data[..i], from)
  {
    hide Shl, Shr, Low, Value, Pow2;
    ShlNothing(Value(data[..i], from));
    ShlZero(from);
    ShrIs(data[i], from, 0, data[i]);
  }

  lemma ShlZero(k: nat)
    ensures Shl(0, k) == 0
  {
  }

  lemma TakenEnd(data: seq<nat>, i: nat, from: nat)
    requires i < |data|
    ensures Taken(data, i, 0, from) == Value(data[..i + 1], from)
  {
    hide Shl, Shr, Value;
    assert data[..i + 1] == data[..i] + [data[i]];
    ValuePush(data[..i], from, data[i]);
    ShlNothing(data[i]);
  }

  /** The next `m` bits of the value. */
  function Chunk(v: nat, left: nat, m: nat): nat
    requires m <= left
  {
    Low(Shr(v, left - m), m)
  }

  lemma TakenMore(data: seq<nat>, i: nat, left: nat, m: nat, from: nat)
    requires i < |data| && m <= left <= from
    ensures Taken(data, i, left - m, from) == Shl(Taken(data, i, left, from), m) + Chunk(data[i], left, m)
  {
    hide Value, Shl, Shr, Low;
    ReadMore(data[i], left - m, m);
    ShlTwice(Value(data[..i], from), from - left, m);
    ShlSum(Shl(Value(data[..i], from), from - left), Shr(data[i], left), m);
  }

  // ----- filling groups -----

  /** The bitwise or of two numbers that have no bit in common: `a` has none below position `k`, `b` no other. */
  function Or(a: nat, b: nat, k: nat): nat
    requires Low(a, k) == 0 && b < Pow2(k)
  {
    a + b
  }

  /** The groups hold `bits` bits that make up `value`; the last group has room for `required` more. */
  ghost predicate Open(groups: seq<nat>, required: nat, into: nat, bits: nat, value: nat) {
    && required <= into && groups != [] && InWidth(groups, into) && bits + required == |groups| * into
    && Value(groups, into) == Shl(value, required)
    && Low(groups[|groups| - 1], required) == 0 && groups[|groups| - 1] + Pow2(required) <= Pow2(into)
  }

  /** Between two chunks: a last group with room left, or a whole number of groups. */
  ghost predicate Filling(groups: seq<nat>, required: nat, into: nat, bits: nat, value: nat) {
    && 0 < required <= into
    && if required == into then InWidth(groups, into) && bits == |groups| * into && Value(groups, into) == value
       else Open(groups, required, into, bits, value)
  }

  lemma OpenGroup(groups: seq<nat>, into: nat, bits: nat, value: nat)
    requires Filling(groups, into, into, bits, value)
    ensures Open(groups + [0], into, into, bits, value)
  {
    hide Shl, Value, Pow2, Low;
    ValuePush(groups, into, 0);
    assert (|groups| + 1) * into == |groups| * into + into;
    ShlZero(into);
    Positive(into);
    ShrIs(0, into, 0, 0);
  }

  lemma Positive(n: nat)
    ensures Pow2(n) > 0
  {
  }

  /** Putting a chunk into the free bits of the last group. */
  lemma ChunkFits(last: nat, required: nat, m: nat, chunk: nat, room: nat)
    requires m <= required && chunk < Pow2(m) && Low(last, required) == 0 && last + Pow2(required) <= room
    ensures Shl(chunk, required - m) < Pow2(required)
    ensures Low(last + Shl(chunk, required - m), required - m) == 0
    ensures last + Shl(chunk, required - m) + Pow2(required - m) <= room
  {
    hide Shl, Shr, Low, Pow2;
    var k := required - m;
    ShlFits(chunk, m, k);
    Positive(k);
    Cut(last, required);
    var high := Shr(last, required);
    ShlTwice(high, m, k);
    ShlSum(Shl(high, m), chunk, k);
    ShrIs(last + Shl(chunk, k), k, Shl(high, m) + chunk, 0);
  }

  lemma ChunkAdded(groups: seq<nat>, required: nat, into: nat, bits: nat, value: nat, m: nat, chunk: nat)
    requires Open(groups, required, into, bits, value) && m <= required && chunk < Pow2(m)
    ensures Shl(chunk, required - m) < Pow2(required)
    ensures var n := |groups| - 1;
            Open(groups[n := groups[n] + Shl(chunk, required - m)], required - m, into, bits + m, Shl(value, m) + chunk)
  {
    hide Value, Pow2, Shl, Low;
    var n, k := |groups| - 1, required - m;
    ChunkFits(groups[n], required, m, chunk, Pow2(into));
    ValueLast(groups, into, groups[n] + Shl(chunk, k));
    ShlTwice(value, m, k);
    ShlSum(Shl(value, m), chunk, k);
    Positive(k);
  }

  lemma CloseGroup(groups: seq<nat>, into: nat, bits: nat, value: nat)
    requires Open(groups, 0, into, bits, value) && into > 0
    ensures Filling(groups, into, into, bits, value)
  {
    hide Value;
    ShlNothing(value);
  }

  /** Moves the next `m` bits of a value into the last group, opening a new one if need be. */
  method AddChunk(groups: seq<nat>, required: nat, into: nat, val: nat, ungrouped: nat, m: nat,
                  ghost bits: nat, ghost value: nat)
      returns (groups': seq<nat>, required': nat)
    requires Filling(groups, required, into, bits, value)
    requires 0 < m && m == if required < ungrouped then required else ungrouped
    ensures Filling(groups', required', into, bits + m, Shl(value, m) + Chunk(val, ungrouped, m))
  {
    hide Value, Pow2, Shl, Shr, Low;
    groups' := groups;
    if required == into {
      OpenGroup(groups, into, bits, value);
      groups' := groups' + [0];
    }
    var n := |groups'| - 1;
    ghost var chunk := Chunk(val, ungrouped, m);
    ChunkAdded(groups', required, into, bits, value, m, chunk);
    if ungrouped >= required {
      ShlNothing(chunk);
      groups' := groups'[n := Or(groups'[n], Low(Shr(val, ungrouped - required), m), required)];
    } else {
      ShlNothing(val);
      groups' := groups'[n := Or(groups'[n], Shl(Low(val, m), required - ungrouped), required)];
    }
    required' := required - m;
    if required' == 0 {
      CloseGroup(groups', into, bits + m, Shl(value, m) + chunk);
      required' := into;
    }
  }

  /** Regroups values of `from` bits into groups of `into` bits, most significant bits first. The groups make up
      the same bit string, filled up with zeros to a whole number of groups. Whole bytes cannot be moved at once:
      the mask for eight bits overflows. */
  method RearrangeBits(data: seq<nat>, from: nat, into: nat) returns (overflowed: bool, groups: seq<nat>)
    requires 0 < from <= 8 && 0 < into <= 8 && InWidth(data, from)
    ensures overflowed <==> from == 8 && into == 8 && data != []
    ensures !overflowed ==> InWidth(groups, into) && IsRegrouping(data, from, groups, into)
  {
    hide Value, Pow2, Filling, Taken, IsRegrouping;
    overflowed, groups := false, [];
    var required: nat := into;
    var done: nat := 0;
    FillNothing(from, into);
    assert data[..0] == [];
    for i := 0 to |data|
      invariant done == i * from && Filling(groups, required, into, done, Value(data[..i], from))
      invariant from == 8 && into == 8 ==> i == 0 && required == into
    {
      TakenStart(data, i, from);
      var ungrouped := from;
      while ungrouped > 0
        invariant 0 <= ungrouped <= from && done == i * from + (from - ungrouped)
        invariant Filling(groups, required, into, done, Taken(data, i, ungrouped, from))
        invariant from == 8 && into == 8 ==> ungrouped == from && required == into
      {
        FillingRoom(groups, required, into, done, Taken(data, i, ungrouped, from));
        var min := if required < ungrouped then required else ungrouped;
        if min >= 8 {
          return true, groups;
        }
        TakenMore(data, i, ungrouped, min, from);
        groups, required := AddChunk(groups, required, into, data[i], ungrouped, min, done, Taken(data, i, ungrouped, from));
        ungrouped := ungrouped - min;
        done := done + min;
      }
      TakenEnd(data, i, from);
      assert i * from + from == (i + 1) * from;
    }
    assert data[..|data|] == data;
    FilledUp(data, from, groups, required, into);
  }

  /** The same bit string, filled up with less than one group of zeros. */
  ghost predicate IsRegrouping(data: seq<nat>, from: nat, groups: seq<nat>, into: nat) {
    var padding := |groups| * into - |data| * from;
    0 <= padding < into && Value(groups, into) == Shl(Value(data, from), padding)
  }

  lemma FillNothing(from: nat, into: nat)
    requires into > 0
    ensures Filling([], into, into, 0, Value([], from))
  {
  }

  lemma FillingRoom(groups: seq<nat>, required: nat, into: nat, bits: nat, value: nat)
    requires Filling(groups, required, into, bits, value)
    ensures 0 < required <= into
  {
  }

  lemma FilledUp(data: seq<nat>, from: nat, groups: seq<nat>, required: nat, into: nat)
    requires Filling(groups, required, into, |data| * from, Value(data, from))
    ensures InWidth(groups, into) && IsRegrouping(data, from, groups, into)
  {
    hide Value, Shl;
    ShlNothing(Value(data, from));
  }

  /** There are as many groups as it takes. */
  lemma GroupCount(data: seq<nat>, from: nat, groups: seq<nat>, into: nat)
    requires IsRegrouping(data, from, groups, into)
    ensures |groups| == (|data| * from + (into - 1)) / into
  {
    hide Value, Shl;
    var padding := |groups| * into - |data| * from;
    DivMod(|data| * from + (into - 1), into, |groups|, into - 1 - padding);
  }

  /** How much padding there is in groups of five and then of eight bits. */
  lemma Paddings(bytes: nat, fives: nat, eights: nat)
    requires 0 <= fives * 5 - bytes * 8 < 5 && 0 <= eights * 8 - fives * 5 < 8
    ensures if bytes * 8 % 5 == 0 then fives * 5 == bytes * 8 && eights == bytes else eights == bytes + 1
  {
  }

  lemma RegroupedTwice(data: seq<nat>, five: seq<nat>, eight: seq<nat>)
    requires IsRegrouping(data, 8, five, 5) && IsRegrouping(five, 5, eight, 8)
    ensures |eight| == if |data| * 8 % 5 == 0 then |data| else |data| + 1
    ensures Value(eight, 8) == Shl(Value(data, 8), |eight| * 8 - |data| * 8)
  {
    hide Value, Pow2, Shl;
    ShlTwice(Value(data, 8), |five| * 5 - |data| * 8, |eight| * 8 - |five| * 5);
    Paddings(|data|, |five|, |eight|);
  }

  lemma ZeroAppended(data: seq<nat>, width: nat)
    requires InWidth(data, width)
    ensures InWidth(data + [0], width) && Value(data + [0], width) == Shl(Value(data, width), width)
  {
    ValuePush(data, width, 0);
  }

  /** From bytes to groups of five bits and back: the bytes, followed by a zero byte unless the bits of the bytes
      are a whole number of groups. */
  lemma BackToBytes(data: seq<nat>, five: seq<nat>, eight: seq<nat>)
    requires InWidth(data, 8) && InWidth(eight, 8)
    requires IsRegrouping(data, 8, five, 5) && IsRegrouping(five, 5, eight, 8)
    ensures eight == if |data| * 8 % 5 == 0 then data else data + [0]
  {
    hide Value, Pow2, Shl, InWidth, IsRegrouping;
    RegroupedTwice(data, five, eight);
    if |eight| == |data| {
      ShlNothing(Value(data, 8));
      ValueDecides(eight, data, 8);
    } else {
      ZeroAppended(data, 8);
      ValueDecides(eight, data + [0], 8);
    }
  }

  /** The version byte and the twenty bytes of an address survive. */
  method AddressData(version: nat, address: seq<nat>) returns (version': nat, address': seq<nat>, groups: seq<nat>)
    requires |address| == 20 && InWidth([version] + address, 8)
    ensures version' == version && address' == address && |groups| == 34
  {
    hide Value, Pow2, Shl;
    var data := [version] + address;
    var overflowed, decoded;
    overflowed, groups := RearrangeBits(data, 8, 5);
    overflowed, decoded := RearrangeBits(groups, 5, 8);
    GroupCount(data, 8, groups, 5);
    BackToBytes(data, groups, decoded);
    version', address' := decoded[0], decoded[1..21];
  }
}
