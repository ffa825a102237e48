/** What scripts mean: a stack machine with forward jumps and bounded memory, as a function of the stack
    (vm/src/executor.rs). */
module Machine {
  import opened Prelude
  import opened Script
  import opened MultiSig

  datatype ScriptResult = Rejected | Unlocked | Burnt

  datatype RuntimeError =
    | OutOfMemory | IndexOutOfBound | StackUnderflow | TypeMismatch | InvalidFilter | InvalidSigCount | InvalidTimelockType

  /** What a script can ask about: signatures, hashes and time. Of cryptography nothing is known. */
  datatype Env = Env(
    verifier: H256 -> Verifier,
    partialHash: Blob -> Option<H256>,
    blake256: Blob -> Blob, sha256: Blob -> Blob, ripemd160: Blob -> Blob, keccak256: Blob -> Blob, blake160: Blob -> Blob,
    parentNumber: nat, parentTimestamp: nat, blockAge: Option<nat>, timeAge: Option<nat>)

  const PUBLIC_LENGTH := 64
  const SIGNATURE_LENGTH := 65

  datatype Outcome = Next(stack: seq<Blob>, jump: nat) | Halt(result: ScriptResult) | Raise(error: RuntimeError)

  // ----- items -----

  function FromBool(b: bool): Blob { if b then [1] else [] }

  predicate Truth(item: Blob) { exists i :: 0 <= i < |item| && item[i] != 0 }

  /** Memory taken by the items. */
  function Total(stack: seq<Blob>): nat {
    if stack == [] then 0 else Total(stack[..|stack| - 1]) + |stack[|stack| - 1]|
  }

  lemma TotalPush(stack: seq<Blob>, item: Blob)
    ensures Total(stack + [item]) == Total(stack) + |item|
  {
    assert (stack + [item])[..|stack|] == stack;
  }

  lemma {:induction false} TotalAppend(a: seq<Blob>, b: seq<Blob>)
    ensures Total(a + b) == Total(a) + Total(b)
  {
    if b == [] {
      assert a + b == a;
    } else {
      var init := b[..|b| - 1];
      assert (a + b)[..|a + b| - 1] == a + init;
      TotalAppend(a, init);
    }
  }

  // ----- one instruction -----

  function PushOn(stack: seq<Blob>, item: Blob, max: nat): Outcome {
    if Total(stack) + |item| > max then Raise(OutOfMemory) else Next(stack + [item], 0)
  }

  /** Replaces the topmost item. */
  function Replace(stack: seq<Blob>, f: Blob -> Blob, max: nat): Outcome {
    if stack == [] then Raise(StackUnderflow)
    else var n := |stack| - 1; PushOn(stack[..n], f(stack[n]), max)
  }

  function Branch(stack: seq<Blob>, offset: nat, taken: bool): Outcome {
    if stack == [] then Raise(StackUnderflow)
    else var n := |stack| - 1; Next(stack[..n], if Truth(stack[n]) == taken then offset else 0)
  }

  /** Takes `n` items of the given length off the stack, topmost first. */
  function PopMany(stack: seq<Blob>, n: nat, length: nat): Result<(seq<Blob>, seq<Blob>), RuntimeError>
    decreases n
  {
    if n == 0 then Ok(([], stack))
    else if stack == [] then Err(StackUnderflow)
    else if |stack[|stack| - 1]| != length then Err(TypeMismatch)
    else match PopMany(stack[..|stack| - 1], n - 1, length)
         case Ok((items, rest)) => Ok(([stack[|stack| - 1]] + items, rest))
         case Err(e) => Err(e)
  }

  function CheckSig(env: Env, stack: seq<Blob>, max: nat): Outcome {
    var n := |stack|;
    if n < 1 then Raise(StackUnderflow)
    else if |stack[n - 1]| != PUBLIC_LENGTH then Raise(TypeMismatch)
    else if n < 2 then Raise(StackUnderflow)
    else match env.partialHash(stack[n - 2])
         case None => Raise(InvalidFilter)
         case Some(hash) =>
           if n < 3 then Raise(StackUnderflow)
           else if |stack[n - 3]| != SIGNATURE_LENGTH then Raise(TypeMismatch)
           else PushOn(stack[..n - 3], [if env.verifier(hash)(stack[n - 1], stack[n - 3]) then 1 else 0], max)
  }

  /** The keys below their number, the signatures below theirs, then the tag. */
  function CheckSigs(env: Env, stack: seq<Blob>, max: nat): Outcome {
    if stack == [] then Raise(StackUnderflow)
    else if |stack[|stack| - 1]| != 1 then Raise(TypeMismatch)
    else match PopMany(stack[..|stack| - 1], stack[|stack| - 1][0], PUBLIC_LENGTH)
         case Err(e) => Raise(e)
         case Ok((keys, rest)) => CheckSigsOf(env, keys, rest, max)
  }

  function CheckSigsOf(env: Env, keys: seq<Blob>, stack: seq<Blob>, max: nat): Outcome {
    if stack == [] then Raise(StackUnderflow)
    else if |stack[|stack| - 1]| != 1 then Raise(TypeMismatch)
    else
      var m := stack[|stack| - 1][0];
      if m > |keys| || m == 0 || m > 6 then Raise(InvalidSigCount)
      else match PopMany(stack[..|stack| - 1], m, SIGNATURE_LENGTH)
           case Err(e) => Raise(e)
           case Ok((sigs, rest)) => CheckSigsWith(env, keys, sigs, rest, max)
  }

  function CheckSigsWith(env: Env, keys: seq<Blob>, sigs: seq<Blob>, stack: seq<Blob>, max: nat): Outcome {
    if stack == [] then Raise(StackUnderflow)
    else match env.partialHash(stack[|stack| - 1])
         case None => Raise(InvalidFilter)
         case Some(hash) => PushOn(stack[..|stack| - 1], [if Greedy(env.verifier(hash), keys, sigs) then 1 else 0], max)
  }

  function CheckTimelock(env: Env, kind: Byte, stack: seq<Blob>, max: nat): Outcome {
    if stack == [] then Raise(StackUnderflow)
    else if |stack[|stack| - 1]| > 8 then Raise(TypeMismatch)
    else
      var value, rest := BigEndian(stack[|stack| - 1]), stack[..|stack| - 1];
      match kind
      case 1 => PushOn(rest, FromBool(env.parentNumber >= value), max)
      case 2 => PushOn(rest, FromBool(env.blockAge.Some? && env.blockAge.value >= value), max)
      case 3 => PushOn(rest, FromBool(env.parentTimestamp >= value), max)
      case 4 => PushOn(rest, FromBool(env.timeAge.Some? && env.timeAge.value >= value), max)
      case _ => Raise(InvalidTimelockType)
  }

  function Shuffle(i: Instruction, stack: seq<Blob>, max: nat): Outcome
    requires i.Eq? || i.Dup? || i.Swap? || i.Copy? || i.Drop? || i.Pop?
  {
    var n := |stack|;
    match i
    case Eq => if n < 2 then Raise(StackUnderflow) else PushOn(stack[..n - 2], FromBool(stack[n - 1] == stack[n - 2]), max)
    case Pop => if n < 1 then Raise(StackUnderflow) else Next(stack[..n - 1], 0)
    case Dup => if n < 1 then Raise(StackUnderflow) else PushOn(stack, stack[n - 1], max)
    case Swap =>
      if n < 2 then Raise(StackUnderflow)
      else if Total(stack) > max then Raise(OutOfMemory)
      else Next(stack[..n - 2] + [stack[n - 1], stack[n - 2]], 0)
    case Copy(index) => if n <= index then Raise(StackUnderflow) else PushOn(stack, stack[n - 1 - index], max)
    case Drop(index) => if n <= index then Raise(IndexOutOfBound) else Next(stack[..index] + stack[(index as nat) + 1..], 0)
  }

  function Negate(item: Blob): Blob { FromBool(!Truth(item)) }

  function Step(i: Instruction, env: Env, stack: seq<Blob>, max: nat): Outcome {
    match i
    case Nop => Next(stack, 0)
    case Burn => Halt(Burnt)
    case Success => Halt(Unlocked)
    case Fail => Halt(Rejected)
    case Not => Replace(stack, Negate, max)
    case Jmp(v) => Next(stack, v)
    case Jnz(v) => Branch(stack, v, true)
    case Jz(v) => Branch(stack, v, false)
    case Push(v) => PushOn(stack, [v], max)
    case PushB(blob) => PushOn(stack, blob, max)
    case ChkSig => CheckSig(env, stack, max)
    case ChkMultiSig => CheckSigs(env, stack, max)
    case Blake256 => Replace(stack, env.blake256, max)
    case Sha256 => Replace(stack, env.sha256, max)
    case Ripemd160 => Replace(stack, env.ripemd160, max)
    case Keccak256 => Replace(stack, env.keccak256, max)
    case Blake160 => Replace(stack, env.blake160, max)
    case ChkTimelock(kind) => CheckTimelock(env, kind, stack, max)
    case _ => Shuffle(i, stack, max)
  }

  // ----- one signature -----

  /** Checking one signature against one key is the same with either instruction. */
  lemma OneOfOne(env: Env, base: seq<Blob>, tag: Blob, sig: Blob, key: Blob, max: nat)
    requires |key| == PUBLIC_LENGTH && |sig| == SIGNATURE_LENGTH
    ensures Step(ChkMultiSig, env, base + [tag, sig, [1], key, [1]], max) == Step(ChkSig, env, base + [sig, tag, key], max)
  {
    hide CheckSig, CheckSigs, CheckSigsOf, CheckSigsWith;
    OneKey(env, base + [tag, sig, [1]], key, max);
    assert base + [tag, sig, [1]] + [key, [1]] == base + [tag, sig, [1], key, [1]];
    OneSignature(env, base + [tag], sig, key, max);
    assert base + [tag] + [sig, [1]] == base + [tag, sig, [1]];
    OneTag(env, base, tag, sig, key, max);
  }

  lemma OneKey(env: Env, rest: seq<Blob>, key: Blob, max: nat)
    requires |key| == PUBLIC_LENGTH
    ensures CheckSigs(env, rest + [key, [1]], max) == CheckSigsOf(env, [key], rest, max)
  {
    hide CheckSigsOf, PopMany;
    assert (rest + [key, [1]])[..|rest| + 1] == rest + [key];
    PopOne(rest, key, PUBLIC_LENGTH);
  }

  lemma OneSignature(env: Env, rest: seq<Blob>, sig: Blob, key: Blob, max: nat)
    requires |sig| == SIGNATURE_LENGTH
    ensures CheckSigsOf(env, [key], rest + [sig, [1]], max) == CheckSigsWith(env, [key], [sig], rest, max)
  {
    hide CheckSigsWith, PopMany;
    assert (rest + [sig, [1]])[..|rest| + 1] == rest + [sig];
    PopOne(rest, sig, SIGNATURE_LENGTH);
  }

  lemma OneTag(env: Env, base: seq<Blob>, tag: Blob, sig: Blob, key: Blob, max: nat)
    requires |key| == PUBLIC_LENGTH && |sig| == SIGNATURE_LENGTH
    ensures CheckSigsWith(env, [key], [sig], base + [tag], max) == CheckSig(env, base + [sig, tag, key], max)
  {
    hide Total, Greedy;
    var single := base + [sig, tag, key];
    assert (base + [tag])[..|base|] == base && single[..|single| - 3] == base;
    if env.partialHash(tag).Some? {
      OneGreedy(env.verifier(env.partialHash(tag).value), key, sig);
    }
  }

  lemma PopOne(rest: seq<Blob>, item: Blob, length: nat)
    requires |item| == length
    ensures PopMany(rest + [item], 1, length) == Ok(([item], rest))
  {
    assert (rest + [item])[..|rest|] == rest;
    assert PopMany(rest, 0, length) == Ok(([], rest));
    assert [item] + [] == [item];
  }

  lemma OneGreedy(verify: Verifier, key: Blob, sig: Blob)
    ensures Greedy(verify, [key], [sig]) == verify(key, sig)
  {
    assert [key][..0] == [] && [sig][..0] == [];
  }

  // ----- whole scripts -----

  function Finish(stack: seq<Blob>): Result<ScriptResult, RuntimeError> {
    if stack == [] then Err(StackUnderflow)
    else Ok(if Truth(stack[|stack| - 1]) && |stack| == 1 then Unlocked else Rejected)
  }

  function Run(script: seq<Instruction>, pc: nat, stack: seq<Blob>, env: Env, max: nat): Result<ScriptResult, RuntimeError>
    decreases |script| - pc
  {
    if pc >= |script| then Finish(stack)
    else match Step(script[pc], env, stack, max)
         case Next(stack', jump) => Run(script, pc + jump + 1, stack', env, max)
         case Halt(result) => Ok(result)
         case Raise(error) => Err(error)
  }

  /** Jumps are relative, so a script runs the same behind any other. */
  lemma {:induction false} RunBehind(before: seq<Instruction>, script: seq<Instruction>, pc: nat, stack: seq<Blob>, env: Env, max: nat)
    ensures Run(before + script, |before| + pc, stack, env, max) == Run(script, pc, stack, env, max)
    decreases |script| - pc
  {
    hide Step;
    if pc < |script| {
      assert (before + script)[|before| + pc] == script[pc];
      match Step(script[pc], env, stack, max)
      case Next(stack', jump) =>
        RunBehind(before, script, pc + jump + 1, stack', env, max);
      case _ =>
    }
  }

  /** What becomes of a run in the first part of a script: it leaves that part, `over` instructions behind its end,
      or it ends there. */
  datatype Exit = Leaves(over: nat, stack: seq<Blob>) | Ends(result: Result<ScriptResult, RuntimeError>)

  function RunBlock(block: seq<Instruction>, pc: nat, stack: seq<Blob>, env: Env, max: nat): Exit
    decreases |block| - pc
  {
    if pc >= |block| then Leaves(pc - |block|, stack)
    else match Step(block[pc], env, stack, max)
         case Next(stack', jump) => RunBlock(block, pc + jump + 1, stack', env, max)
         case Halt(result) => Ends(Ok(result))
         case Raise(error) => Ends(Err(error))
  }

  /** A script runs in its second part from where the first part leaves off, jumps across the border included. */
  lemma {:induction false} RunConcat(a: seq<Instruction>, b: seq<Instruction>, pc: nat, stack: seq<Blob>, env: Env, max: nat)
    ensures Run(a + b, pc, stack, env, max)
         == match RunBlock(a, pc, stack, env, max)
            case Leaves(over, stack') => Run(b, over, stack', env, max)
            case Ends(result) => result
    decreases |a| - pc
  {
    hide Step;
    if pc >= |a| {
      RunBehind(a, b, pc - |a|, stack, env, max);
    } else {
      assert (a + b)[pc] == a[pc];
      match Step(a[pc], env, stack, max)
      case Next(stack', jump) =>
        RunConcat(a, b, pc + jump + 1, stack', env, max);
      case _ =>
    }
  }

  /** The two pieces do the same, wherever they are entered. */
  ghost predicate SameBlocks(a: seq<Instruction>, b: seq<Instruction>, env: Env, max: nat) {
    |a| == |b| && forall pc: nat, stack :: RunBlock(a, pc, stack, env, max) == RunBlock(b, pc, stack, env, max)
  }

  /** A piece of a script can be replaced by one that does the same. */
  lemma ReplaceBlock(before: seq<Instruction>, a: seq<Instruction>, b: seq<Instruction>, after: seq<Instruction>, pc: nat,
                     stack: seq<Blob>, env: Env, max: nat)
    requires SameBlocks(a, b, env, max)
    ensures Run(before + a + after, pc, stack, env, max) == Run(before + b + after, pc, stack, env, max)
  {
    hide RunBlock, Run;
    assert before + a + after == before + (a + after) && before + b + after == before + (b + after);
    RunConcat(before, a + after, pc, stack, env, max);
    RunConcat(before, b + after, pc, stack, env, max);
    match RunBlock(before, pc, stack, env, max)
    case Leaves(over, stack') =>
      RunConcat(a, after, over, stack', env, max);
      RunConcat(b, after, over, stack', env, max);
    case Ends(_) =>
  }

  /** An instruction can be replaced by one with the same effect on every stack. */
  lemma ReplaceOne(script: seq<Instruction>, k: nat, i: Instruction, pc: nat, stack: seq<Blob>, env: Env, max: nat)
    requires k < |script| && forall s :: Step(script[k], env, s, max) == Step(i, env, s, max)
    ensures Run(script[k := i], pc, stack, env, max) == Run(script, pc, stack, env, max)
  {
    hide Step, Run;
    var before, after := script[..k], script[k + 1..];
    forall pc: nat, s ensures RunBlock([script[k]], pc, s, env, max) == RunBlock([i], pc, s, env, max) {
      assert Step(script[k], env, s, max) == Step(i, env, s, max);
    }
    ReplaceBlock(before, [script[k]], [i], after, pc, stack, env, max);
    assert script == before + [script[k]] + after && script[k := i] == before + [i] + after;
  }

  // ----- unlock scripts -----

  predicate IsPush(i: Instruction) { i.Push? || i.PushB? }

  predicate IsValidUnlockScript(script: seq<Instruction>) { forall k :: 0 <= k < |script| ==> IsPush(script[k]) }

  function Pushed(i: Instruction): Blob
    requires IsPush(i)
  {
    if i.Push? then [i.value] else i.blob
  }

  function PushedItems(script: seq<Instruction>): (items: seq<Blob>)
    requires IsValidUnlockScript(script)
  {
    seq(|script|, k requires 0 <= k < |script| => Pushed(script[k]))
  }

  lemma StepPush(i: Instruction, env: Env, stack: seq<Blob>, max: nat)
    requires IsPush(i)
    ensures Step(i, env, stack, max) == PushOn(stack, Pushed(i), max)
  {
  }

  /** Running one instruction and then the rest. */
  lemma RunFirst(i: Instruction, rest: seq<Instruction>, stack: seq<Blob>, env: Env, max: nat)
    ensures match Step(i, env, stack, max)
            case Next(stack', jump) => Run([i] + rest, 0, stack, env, max) == Run(rest, jump, stack', env, max)
            case Halt(result) => Run([i] + rest, 0, stack, env, max) == Ok(result)
            case Raise(error) => Run([i] + rest, 0, stack, env, max) == Err(error)
  {
    hide Step;
    assert ([i] + rest)[0] == i;
    match Step(i, env, stack, max)
    case Next(stack', jump) =>
      RunBehind([i], rest, jump, stack', env, max);
    case _ =>
  }

  lemma PushedFirst(pushes: seq<Instruction>)
    requires IsValidUnlockScript(pushes) && pushes != []
    ensures IsPush(pushes[0]) && IsValidUnlockScript(pushes[1..])
    ensures PushedItems(pushes) == [Pushed(pushes[0])] + PushedItems(pushes[1..])
  {
  }

  /** Running pushes in front of a script is running the script on what they push, if that fits. */
  lemma {:induction false} RunPushes(pushes: seq<Instruction>, script: seq<Instruction>, stack: seq<Blob>, env: Env, max: nat)
    requires IsValidUnlockScript(pushes) && Total(stack) <= max
    ensures Run(pushes + script, 0, stack, env, max)
         == if Total(stack + PushedItems(pushes)) > max then Err(OutOfMemory)
            else Run(script, 0, stack + PushedItems(pushes), env, max)
    decreases |pushes|
  {
    hide Step, Pushed, Run, Total, IsValidUnlockScript;
    if pushes == [] {
      assert pushes + script == script && stack + PushedItems(pushes) == stack;
    } else {
      PushedFirst(pushes);
      var item, rest := Pushed(pushes[0]), pushes[1..];
      assert stack + PushedItems(pushes) == (stack + [item]) + PushedItems(rest);
      assert pushes + script == [pushes[0]] + (rest + script);
      StepPush(pushes[0], env, stack, max);
      RunFirst(pushes[0], rest + script, stack, env, max);
      TotalPush(stack, item);
      TotalAppend(stack + [item], PushedItems(rest));
      if Total(stack) + |item| <= max {
        RunPushes(rest, script, stack + [item], env, max);
      }
    }
  }
}
