/** What instructions and whole scripts do to stacks, from the bottom item to the top one, without looking into the
    machine (vm/src/executor.rs). */
module ScriptLaws {
  import opened Prelude
  import opened Script
  import opened MultiSig
  import opened Machine
  import Executor

  type Answer = Result<ScriptResult, RuntimeError>

  /** Some byte of the item is not zero. */
  ghost predicate IsTrue(item: Blob) { exists i :: 0 <= i < |item| && item[i] != 0 }

  /** Running `rest` on the stack, if an item of this size still fits. */
  function OnRoom(rest: seq<Instruction>, below: seq<Blob>, item: Blob, env: Env, max: nat): Answer {
    if Total(below) + |item| > max then Err(OutOfMemory) else Run(rest, 0, below + [item], env, max)
  }

  // ----- the end, and jumps -----

  /** A script that has come to its end unlocks exactly with one true item. */
  lemma AtEnd(s: seq<Blob>, item: Blob, env: Env, max: nat)
    ensures Run([], 0, [], env, max) == Err(StackUnderflow)
    ensures Run([], 0, s + [item], env, max) == Ok(if s == [] && IsTrue(item) then Unlocked else Rejected)
  {
  }

  lemma PastEnd(script: seq<Instruction>, pc: nat, s: seq<Blob>, env: Env, max: nat)
    requires pc >= |script|
    ensures Run(script, pc, s, env, max) == Run([], 0, s, env, max)
  {
  }

  lemma Stops(rest: seq<Instruction>, s: seq<Blob>, env: Env, max: nat)
    ensures Run([Burn] + rest, 0, s, env, max) == Ok(Burnt)
    ensures Run([Success] + rest, 0, s, env, max) == Ok(Unlocked)
    ensures Run([Fail] + rest, 0, s, env, max) == Ok(Rejected)
  {
    RunFirst(Burn, rest, s, env, max);
    RunFirst(Success, rest, s, env, max);
    RunFirst(Fail, rest, s, env, max);
  }

  /** A jump skips as many of the instructions behind it as it says. */
  lemma Jumps(rest: seq<Instruction>, v: Byte, s: seq<Blob>, item: Blob, env: Env, max: nat)
    ensures Run([Nop] + rest, 0, s, env, max) == Run(rest, 0, s, env, max)
    ensures Run([Jmp(v)] + rest, 0, s, env, max) == Run(rest, v, s, env, max)
    ensures Run([Jnz(v)] + rest, 0, s + [item], env, max) == Run(rest, if IsTrue(item) then v else 0, s, env, max)
    ensures Run([Jz(v)] + rest, 0, s + [item], env, max) == Run(rest, if IsTrue(item) then 0 else v, s, env, max)
  {
    RunFirst(Nop, rest, s, env, max);
    RunFirst(Jmp(v), rest, s, env, max);
    RunFirst(Jnz(v), rest, s + [item], env, max);
    RunFirst(Jz(v), rest, s + [item], env, max);
    assert (s + [item])[..|s|] == s;
  }

  // ----- moving items -----

  lemma Pushes(rest: seq<Instruction>, v: Byte, blob: Blob, s: seq<Blob>, env: Env, max: nat)
    ensures Run([Instruction.Push(v)] + rest, 0, s, env, max) == OnRoom(rest, s, [v], env, max)
    ensures Run([PushB(blob)] + rest, 0, s, env, max) == OnRoom(rest, s, blob, env, max)
  {
    RunFirst(Instruction.Push(v), rest, s, env, max);
    RunFirst(PushB(blob), rest, s, env, max);
  }

  lemma Pops(rest: seq<Instruction>, s: seq<Blob>, item: Blob, env: Env, max: nat)
    ensures Run([Pop] + rest, 0, s + [item], env, max) == Run(rest, 0, s, env, max)
  {
    RunFirst(Pop, rest, s + [item], env, max);
    assert (s + [item])[..|s|] == s;
  }

  lemma Dups(rest: seq<Instruction>, s: seq<Blob>, item: Blob, env: Env, max: nat)
    ensures Run([Dup] + rest, 0, s + [item], env, max) == OnRoom(rest, s + [item], item, env, max)
  {
    RunFirst(Dup, rest, s + [item], env, max);
  }

  lemma Swaps(rest: seq<Instruction>, s: seq<Blob>, a: Blob, b: Blob, env: Env, max: nat)
    requires Total(s + [a, b]) <= max
    ensures Run([Swap] + rest, 0, s + [a, b], env, max) == Run(rest, 0, s + [b, a], env, max)
  {
    RunFirst(Swap, rest, s + [a, b], env, max);
    assert (s + [a, b])[..|s|] == s;
  }

  /** Copies the item that has `index` items above it. */
  lemma Copies(rest: seq<Instruction>, below: seq<Blob>, item: Blob, above: seq<Blob>, env: Env, max: nat)
    requires |above| < 256
    ensures Run([Copy(|above|)] + rest, 0, below + [item] + above, env, max) == OnRoom(rest, below + [item] + above, item, env, max)
  {
    RunFirst(Copy(|above|), rest, below + [item] + above, env, max);
  }

  /** Drops the item that has `index` items below it. */
  lemma Drops(rest: seq<Instruction>, below: seq<Blob>, item: Blob, above: seq<Blob>, env: Env, max: nat)
    requires |below| < 256
    ensures Run([Drop(|below|)] + rest, 0, below + [item] + above, env, max) == Run(rest, 0, below + above, env, max)
  {
    RunFirst(Drop(|below|), rest, below + [item] + above, env, max);
    assert (below + [item] + above)[..|below|] + (below + [item] + above)[|below| + 1..] == below + above;
  }

  // ----- computing -----

  lemma Compares(rest: seq<Instruction>, s: seq<Blob>, a: Blob, b: Blob, env: Env, max: nat)
    ensures Run([Eq] + rest, 0, s + [a, b], env, max) == OnRoom(rest, s, if a == b then [1] else [], env, max)
  {
    RunFirst(Eq, rest, s + [a, b], env, max);
    assert (s + [a, b])[..|s|] == s;
  }

  lemma Negates(rest: seq<Instruction>, s: seq<Blob>, item: Blob, env: Env, max: nat)
    ensures Run([Not] + rest, 0, s + [item], env, max) == OnRoom(rest, s, if IsTrue(item) then [] else [1], env, max)
  {
    RunFirst(Not, rest, s + [item], env, max);
    assert (s + [item])[..|s|] == s;
  }

  /** Every hash instruction replaces the topmost item by its own hash. */
  lemma Hashes(rest: seq<Instruction>, s: seq<Blob>, item: Blob, env: Env, max: nat)
    ensures Run([Blake256] + rest, 0, s + [item], env, max) == OnRoom(rest, s, env.blake256(item), env, max)
    ensures Run([Sha256] + rest, 0, s + [item], env, max) == OnRoom(rest, s, env.sha256(item), env, max)
    ensures Run([Ripemd160] + rest, 0, s + [item], env, max) == OnRoom(rest, s, env.ripemd160(item), env, max)
    ensures Run([Keccak256] + rest, 0, s + [item], env, max) == OnRoom(rest, s, env.keccak256(item), env, max)
    ensures Run([Blake160] + rest, 0, s + [item], env, max) == OnRoom(rest, s, env.blake160(item), env, max)
  {
    hide Run, OnRoom, Replace;
    Replaces(Blake256, env.blake256, rest, s, item, env, max);
    Replaces(Sha256, env.sha256, rest, s, item, env, max);
    Replaces(Ripemd160, env.ripemd160, rest, s, item, env, max);
    Replaces(Keccak256, env.keccak256, rest, s, item, env, max);
    Replaces(Blake160, env.blake160, rest, s, item, env, max);
  }

  lemma Replaces(i: Instruction, f: Blob -> Blob, rest: seq<Instruction>, s: seq<Blob>, item: Blob, env: Env, max: nat)
    requires Step(i, env, s + [item], max) == Replace(s + [item], f, max)
    ensures Run([i] + rest, 0, s + [item], env, max) == OnRoom(rest, s, f(item), env, max)
  {
    hide Run, Total, Step;
    assert (s + [item])[..|s|] == s;
    RunFirst(i, rest, s + [item], env, max);
  }

  /** The quantity that a kind of timelock is about: the parent block's number, the age in blocks, the parent block's
      timestamp, the age in seconds. */
  function Reached(env: Env, kind: Byte): Option<nat> {
    if kind == 1 then Some(env.parentNumber)
    else if kind == 2 then env.blockAge
    else if kind == 3 then Some(env.parentTimestamp)
    else env.timeAge
  }

  /** A timelock is over once the quantity has reached the number on the stack, most significant byte first. */
  lemma Timelocks(rest: seq<Instruction>, kind: Byte, s: seq<Blob>, item: Blob, env: Env, max: nat)
    requires |item| <= 8
    ensures 1 <= kind <= 4 ==>
              Run([ChkTimelock(kind)] + rest, 0, s + [item], env, max)
              == OnRoom(rest, s, if Reached(env, kind).Some? && BigEndian(item) <= Reached(env, kind).value then [1] else [], env, max)
    ensures !(1 <= kind <= 4) ==> Run([ChkTimelock(kind)] + rest, 0, s + [item], env, max) == Err(InvalidTimelockType)
  {
    hide Run, Total, BigEndian;
    RunFirst(ChkTimelock(kind), rest, s + [item], env, max);
    assert (s + [item])[..|s|] == s;
  }

  lemma LongTimelock(rest: seq<Instruction>, kind: Byte, s: seq<Blob>, item: Blob, env: Env, max: nat)
    requires |item| > 8
    ensures Run([ChkTimelock(kind)] + rest, 0, s + [item], env, max) == Err(TypeMismatch)
  {
    RunFirst(ChkTimelock(kind), rest, s + [item], env, max);
  }

  /** What is missing on the stack is an error. */
  lemma Underflows(rest: seq<Instruction>, i: Instruction, s: seq<Blob>, env: Env, max: nat)
    requires |s| < match i
                   case Eq => 2 case Swap => 2
                   case Copy(index) => index as nat + 1
                   case Drop(index) => index as nat + 1
                   case Not => 1 case Jnz(_) => 1 case Jz(_) => 1 case Pop => 1 case Dup => 1
                   case Blake256 => 1 case Sha256 => 1 case Ripemd160 => 1 case Keccak256 => 1 case Blake160 => 1
                   case ChkSig => 1 case ChkMultiSig => 1 case ChkTimelock(_) => 1
                   case _ => 0
    ensures Run([i] + rest, 0, s, env, max) == Err(if i.Drop? then IndexOutOfBound else StackUnderflow)
  {
    hide Run;
    RunFirst(i, rest, s, env, max);
  }

  // ----- signatures -----

  /** One signature, the tag that selects what was signed, and a public key. */
  lemma ChecksOne(rest: seq<Instruction>, s: seq<Blob>, sig: Blob, tag: Blob, key: Blob, env: Env, max: nat)
    requires |key| == 64 && |sig| == 65
    ensures Run([ChkSig] + rest, 0, s + [sig, tag, key], env, max)
         == match env.partialHash(tag)
            case None => Err(InvalidFilter)
            case Some(hash) => OnRoom(rest, s, [if env.verifier(hash)(key, sig) then 1 else 0], env, max)
  {
    hide Run, Total;
    RunFirst(ChkSig, rest, s + [sig, tag, key], env, max);
    assert (s + [sig, tag, key])[..|s|] == s;
  }

  /** The signatures can be given to different keys in order. */
  ghost predicate CanMatch(verify: Verifier, keys: seq<Blob>, sigs: seq<Blob>) {
    exists f :: IsMatching(verify, keys, sigs, f)
  }

  /** The order in which the two lists are read does not matter, if it is the same for both. */
  lemma MatchingReversed(verify: Verifier, keys: seq<Blob>, sigs: seq<Blob>, f: seq<nat>) returns (g: seq<nat>)
    requires IsMatching(verify, keys, sigs, f)
    ensures IsMatching(verify, Reverse(keys), Reverse(sigs), g)
  {
    g := seq(|f|, i requires 0 <= i < |f| => assert f[|f| - 1 - i] < |keys|; |keys| - 1 - f[|f| - 1 - i]);
    forall i, j | 0 <= i < j < |g| ensures g[i] < g[j] {
      assert f[|f| - 1 - j] < f[|f| - 1 - i];
    }
  }

  lemma ReversedMatch(verify: Verifier, keys: seq<Blob>, sigs: seq<Blob>)
    ensures CanMatch(verify, Reverse(keys), Reverse(sigs)) <==> CanMatch(verify, keys, sigs)
  {
    if f :| IsMatching(verify, keys, sigs, f) {
      var g := MatchingReversed(verify, keys, sigs, f);
    }
    if f :| IsMatching(verify, Reverse(keys), Reverse(sigs), f) {
      var g := MatchingReversed(verify, Reverse(keys), Reverse(sigs), f);
      assert Reverse(Reverse(keys)) == keys && Reverse(Reverse(sigs)) == sigs;
    }
  }

  predicate AllSized(items: seq<Blob>, length: nat) { forall i :: 0 <= i < |items| ==> |items[i]| == length }

  lemma {:induction false} PopsAll(below: seq<Blob>, items: seq<Blob>, length: nat)
    requires AllSized(items, length)
    ensures PopMany(below + items, |items|, length) == Ok((Reverse(items), below))
  {
    if items == [] {
      assert below + items == below && Reverse(items) == [];
    } else {
      var n := |items| - 1;
      PopsAll(below, items[..n], length);
      assert (below + items)[..|below| + n] == below + items[..n];
      assert Reverse(items) == [items[n]] + Reverse(items[..n]);
    }
  }

  /** The stack that asks for m of n signatures. */
  function MultiSigStack(s: seq<Blob>, tag: Blob, sigs: seq<Blob>, keys: seq<Blob>): seq<Blob>
    requires |sigs| < 256 && |keys| < 256
  {
    s + [tag] + sigs + [[|sigs|]] + keys + [[|keys|]]
  }

  /** The tag, m signatures and m, n keys and n: true if the signatures can be given to different keys in order. */
  lemma ChecksMany(rest: seq<Instruction>, s: seq<Blob>, tag: Blob, sigs: seq<Blob>, keys: seq<Blob>, env: Env, max: nat)
    requires 0 < |sigs| <= |keys| < 256 && |sigs| <= 6 && AllSized(sigs, 65) && AllSized(keys, 64)
    ensures Run([ChkMultiSig] + rest, 0, MultiSigStack(s, tag, sigs, keys), env, max)
         == match env.partialHash(tag)
            case None => Err(InvalidFilter)
            case Some(hash) => OnRoom(rest, s, [if CanMatch(env.verifier(hash), keys, sigs) then 1 else 0], env, max)
  {
    hide Run, Total, PopMany, Greedy, CanMatch;
    var stack := MultiSigStack(s, tag, sigs, keys);
    var a := s + [tag] + sigs;
    var b := a + [[|sigs|]];
    RunFirst(ChkMultiSig, rest, stack, env, max);
    assert stack[..|stack| - 1] == b + keys;
    PopsAll(b, keys, 64);
    assert b[..|b| - 1] == a;
    PopsAll(s + [tag], sigs, 65);
    assert (s + [tag])[..|s|] == s;
    if env.partialHash(tag).Some? {
      var verify := env.verifier(env.partialHash(tag).value);
      GreedyMeans(verify, Reverse(keys), Reverse(sigs));
      ReversedMatch(verify, keys, sigs);
    }
  }

  lemma GreedyMeans(verify: Verifier, keys: seq<Blob>, sigs: seq<Blob>)
    ensures Greedy(verify, keys, sigs) <==> CanMatch(verify, keys, sigs)
  {
    GreedyIsExact(verify, keys, sigs);
  }

  /** No signatures, more than six or more than keys are an error. */
  lemma BadCount(rest: seq<Instruction>, s: seq<Blob>, m: Byte, keys: seq<Blob>, env: Env, max: nat)
    requires |keys| < 256 && AllSized(keys, 64) && (m == 0 || m > 6 || m as nat > |keys|)
    ensures Run([ChkMultiSig] + rest, 0, s + [[m]] + keys + [[|keys|]], env, max) == Err(InvalidSigCount)
  {
    hide Run, PopMany;
    var stack := s + [[m]] + keys + [[|keys|]];
    RunFirst(ChkMultiSig, rest, stack, env, max);
    assert stack[..|stack| - 1] == s + [[m]] + keys;
    PopsAll(s + [[m]], keys, 64);
  }

  /** An unlock script may only push. */
  lemma UnlockInWords(script: seq<Instruction>)
    ensures IsValidUnlockScript(script) <==> forall i :: i in script ==> i.Push? || i.PushB?
  {
    if forall i :: i in script ==> i.Push? || i.PushB? {
      forall k | 0 <= k < |script| ensures IsPush(script[k]) {
        assert script[k] in script;
      }
    }
  }

  // ----- whole scripts -----

  /** A lock that burns unless the two items are equal: the exact answer, memory included. */
  lemma EqualOrBurnt(a: Blob, b: Blob, env: Env, max: nat)
    requires |a| + |b| <= max
    ensures Run([Eq, Dup, Jnz(1), Burn], 0, [a, b], env, max)
         == if a != b then Ok(Burnt) else if max < 2 then Err(OutOfMemory) else Ok(Unlocked)
  {
    hide Run, IsTrue;
    var item: Blob := if a == b then [1] else [];
    assert [Eq, Dup, Jnz(1), Burn] == [Eq] + [Dup, Jnz(1), Burn] && [] + [a, b] == [a, b];
    Compares([Dup, Jnz(1), Burn], [], a, b, env, max);
    assert [] + [item] == [item];
    if |item| <= max {
      assert [Dup, Jnz(1), Burn] == [Dup] + [Jnz(1), Burn];
      Dups([Jnz(1), Burn], [], item, env, max);
      OneItem(item);
      if 2 * |item| <= max {
        assert [Jnz(1), Burn] == [Jnz(1)] + [Burn];
        Jumps([Burn], 1, [item], item, env, max);
        IsTrueOf(a == b);
        Stops([], [item], env, max);
        assert [Burn] + [] == [Burn];
        PastEnd([Burn], 1, [item], env, max);
        AtEnd([], item, env, max);
      }
    }
  }

  lemma OneItem(item: Blob)
    ensures Total([item]) == |item| && Total([]) == 0
  {
    TotalPush([], item);
    assert [] + [item] == [item];
  }

  lemma IsTrueOf(b: bool)
    ensures IsTrue(if b then [1] else []) <==> b
    ensures IsTrue([if b then 1 else 0]) <==> b
  {
    assert b ==> [1][0] != 0;
    assert b ==> [if b then 1 else 0][0] != 0;
  }

  /** The test of the repository, on any two items: the unlock script pushes one, and the other is a parameter. */
  method ConditionalBurn(a: Blob, b: Blob, env: Env, max: nat) returns (r: Answer)
    ensures r == if |a| + |b| > max then Err(OutOfMemory)
                 else if a != b then Ok(Burnt)
                 else if max < 2 then Err(OutOfMemory)
                 else Ok(Unlocked)
  {
    hide Run;
    ghost var steps;
    r, steps := Executor.Execute([PushB(a)], [b], [Eq, Dup, Jnz(1), Burn], env, max);
    assert PushedItems([PushB(a)]) + Reverse([b]) == [a, b];
    TwoItems(a, b);
    if |a| + |b| <= max {
      EqualOrBurnt(a, b, env, max);
    }
  }

  lemma TwoItems(a: Blob, b: Blob)
    ensures Total([a, b]) == |a| + |b|
  {
    OneItem(a);
    TotalPush([a], b);
    assert [a] + [b] == [a, b];
  }

  lemma ThreeItems(a: Blob, b: Blob, c: Blob)
    ensures Total([a, b, c]) == |a| + |b| + |c|
  {
    TwoItems(a, b);
    TotalPush([a, b], c);
    assert [a, b] + [c] == [a, b, c];
  }

  /** Pay to a public key: unlocked exactly by a signature that verifies under the key. */
  method PayToPublicKey(sig: Blob, tag: Blob, key: Blob, env: Env, max: nat) returns (r: Answer)
    requires |key| == 64 && |sig| == 65
    ensures r == if |sig| + |tag| + |key| > max then Err(OutOfMemory)
                 else match env.partialHash(tag)
                      case None => Err(InvalidFilter)
                      case Some(hash) => Ok(if env.verifier(hash)(key, sig) then Unlocked else Rejected)
  {
    hide Run, Total, IsTrue;
    ghost var steps;
    r, steps := Executor.Execute([PushB(sig), PushB(tag)], [], [PushB(key), ChkSig], env, max);
    assert PushedItems([PushB(sig), PushB(tag)]) + Reverse([]) == [sig, tag];
    TwoItems(sig, tag);
    ThreeItems(sig, tag, key);
    assert [PushB(key), ChkSig] == [PushB(key)] + [ChkSig] && [sig, tag] + [key] == [] + [sig, tag, key];
    Pushes([ChkSig], 0, key, [sig, tag], env, max);
    assert [ChkSig] + [] == [ChkSig];
    ChecksOne([], [], sig, tag, key, env, max);
    if max > 0 {
      OneVerdict(env, max, env.partialHash(tag).Some? && env.verifier(env.partialHash(tag).value)(key, sig));
    }
  }

  lemma OneVerdict(env: Env, max: nat, ok: bool)
    requires max > 0
    ensures OnRoom([], [], [if ok then 1 else 0], env, max) == Ok(if ok then Unlocked else Rejected)
  {
    OneItem([if ok then 1 else 0]);
    IsTrueOf(ok);
    AtEnd([], [if ok then 1 else 0], env, max);
  }

  /** The instructions that push the items. */
  function PushAll(items: seq<Blob>): (script: seq<Instruction>)
    ensures IsValidUnlockScript(script) && PushedItems(script) == items
  {
    seq(|items|, i requires 0 <= i < |items| => PushB(items[i]))
  }

  /** m of n: unlocked exactly by signatures that can be given to different keys in order. */
  method PayToMany(tag: Blob, sigs: seq<Blob>, keys: seq<Blob>, env: Env, max: nat) returns (r: Answer)
    requires 0 < |sigs| <= |keys| < 256 && |sigs| <= 6 && AllSized(sigs, 65) && AllSized(keys, 64)
    ensures r == if Total(MultiSigStack([], tag, sigs, keys)) > max then Err(OutOfMemory)
                 else match env.partialHash(tag)
                      case None => Err(InvalidFilter)
                      case Some(hash) => Ok(if CanMatch(env.verifier(hash), keys, sigs) then Unlocked else Rejected)
  {
    hide Run, Total, CanMatch, OnRoom;
    var asked := [[|sigs|]] + keys + [[|keys|]];
    ghost var given, stack := [tag] + sigs, MultiSigStack([], tag, sigs, keys);
    ghost var steps;
    r, steps := Executor.Execute(PushAll([tag] + sigs), [], PushAll(asked) + [ChkMultiSig], env, max);
    assert given + Reverse<Blob>([]) == given && given + asked == stack;
    TotalAppend(given, asked);
    if Total(given) <= max {
      RunPushes(PushAll(asked), [ChkMultiSig], given, env, max);
      assert [ChkMultiSig] + [] == [ChkMultiSig];
      ChecksMany([], [], tag, sigs, keys, env, max);
      if Total(stack) <= max {
        SomeMemory(stack);
        if env.partialHash(tag).Some? {
          OneVerdict(env, max, CanMatch(env.verifier(env.partialHash(tag).value), keys, sigs));
        }
      }
    }
  }

  lemma SomeMemory(stack: seq<Blob>)
    requires stack != [] && stack[|stack| - 1] != []
    ensures Total(stack) > 0
  {
  }
}
