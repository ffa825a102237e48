/** Shared vocabulary: optional values, results, identifiers, bytes and lists. */
module Prelude {

  datatype Option<+T> = None | Some(value: T) {
    function GetOr(default: T): T {
      if Some? then value else default
    }
  }

  datatype Result<+T, +E> = Ok(value: T) | Err(error: E)

  /** A 256-bit hash. Only equality of hashes is ever used. */
  type H256 = nat

  type Positive = n: nat | n > 0 witness 1

  type Byte = b: int | 0 <= b < 256

  function BigEndian(bytes: seq<Byte>): nat {
    if bytes == [] then 0 else BigEndian(bytes[..|bytes| - 1]) * 256 + bytes[|bytes| - 1]
  }

  function Reverse<T>(s: seq<T>): (r: seq<T>)
    ensures |r| == |s|
    ensures forall i :: 0 <= i < |s| ==> r[i] == s[|s| - 1 - i]
  {
    seq(|s|, i requires 0 <= i < |s| => s[|s| - 1 - i])
  }

  /** A list that grows at its end. */
  datatype Log<+T> = Empty | Push(init: Log<T>, last: T)

  lemma AddThenUpdate<K, V>(m: map<K, V>, c: map<K, V>, k: K, v: V)
    ensures m + c[k := v] == (m + c)[k := v]
  {
  }

  lemma DropThenPut<K, V>(m: map<K, V>, k: K, v: V)
    ensures (m - {k})[k := v] == m[k := v]
  {
  }

  lemma PutThenDrop<K, V>(m: map<K, V>, k: K, v: V, d: K)
    requires d != k
    ensures m[k := v] - {d} == (m - {d})[k := v]
  {
  }

  ghost function Elements<T>(s: seq<T>): set<T> { set x | x in s }

  lemma ElementsPush<T>(s: seq<T>, x: T)
    ensures Elements<T>(s + [x]) == Elements<T>(s) + {x}
  {
  }

  /** Every entry of `small` is an entry of `large`. */
  ghost predicate SubMap<K, V>(small: map<K, V>, large: map<K, V>) {
    forall k :: k in small ==> k in large && small[k] == large[k]
  }

  lemma SubMapTrans<K, V>(a: map<K, V>, b: map<K, V>, c: map<K, V>)
    requires SubMap(a, b) && SubMap(b, c)
    ensures SubMap(a, c)
  {
  }

  ghost predicate IsLeast(keys: set<nat>, low: nat) { low in keys && forall k :: k in keys ==> low <= k }

  lemma {:induction false} LeastExists(keys: set<nat>) returns (low: nat)
    requires keys != {}
    ensures IsLeast(keys, low)
  {
    low :| low in keys;
    if keys != {low} {
      var b := LeastExists(keys - {low});
      assert forall k :: k in keys ==> k == low || k in keys - {low};
      low := if low < b then low else b;
    }
  }

  ghost function Least(keys: set<nat>): (low: nat)
    requires keys != {}
    ensures IsLeast(keys, low)
  {
    LeastWitness(keys);
    var low :| IsLeast(keys, low);
    low
  }

  lemma LeastWitness(keys: set<nat>)
    requires keys != {}
    ensures exists low :: IsLeast(keys, low)
  {
    var low := LeastExists(keys);
  }

  lemma {:induction false} SubsetSize<T>(a: set<T>, b: set<T>)
    requires a <= b
    ensures |a| <= |b|
    decreases |a|
  {
    if a != {} {
      var x :| x in a;
      SubsetSize(a - {x}, b - {x});
    }
  }
}
