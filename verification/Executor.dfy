/** The script interpreter: a stack that keeps count of its memory and a loop over the concatenated scripts
    (vm/src/executor.rs, vm/src/instruction.rs). */
module Executor {
  import opened Prelude
  import opened Script
  import opened MultiSig
  import opened Machine

  class Stack {
    var stack: seq<Blob>
    var memoryUsage: nat
    const maxMemory: nat

    constructor (maxMemory: nat)
      ensures Valid() && stack == [] && this.maxMemory == maxMemory
    {
      stack, memoryUsage, this.maxMemory := [], 0, maxMemory;
    }

    /** The running count is the memory of the items, and never more than allowed. */
    ghost predicate Valid()
      reads this
    {
      memoryUsage == Total(stack) <= maxMemory
    }

    method Push(item: Blob) returns (ok: bool)
      requires Valid()
      modifies this
      ensures Valid() && ok == (Total(old(stack)) + |item| <= maxMemory)
      ensures stack == if ok then old(stack) + [item] else old(stack)
    {
      if memoryUsage + |item| > maxMemory {
        return false;
      }
      TotalPush(stack, item);
      memoryUsage := memoryUsage + |item|;
      stack := stack + [item];
      return true;
    }

    method Pop() returns (item: Option<Blob>)
      requires Valid()
      modifies this
      ensures Valid() && item.Some? == (old(stack) != [])
      ensures if item.Some? then stack == old(stack)[..|old(stack)| - 1] && item.value == old(stack)[|old(stack)| - 1] else stack == []
    {
      if stack == [] {
        return None;
      }
      item := Some(stack[|stack| - 1]);
      memoryUsage := memoryUsage - |stack[|stack| - 1]|;
      stack := stack[..|stack| - 1];
    }

    method Remove(index: nat) returns (ok: bool)
      requires Valid()
      modifies this
      ensures Valid() && ok == (index < |old(stack)|)
      ensures stack == if ok then old(stack)[..index] + old(stack)[index + 1..] else old(stack)
    {
      if index >= |stack| {
        return false;
      }
      var item := stack[index];
      assert stack == (stack[..index] + [item]) + stack[index + 1..];
      TotalAppend(stack[..index] + [item], stack[index + 1..]);
      TotalPush(stack[..index], item);
      TotalAppend(stack[..index], stack[index + 1..]);
      memoryUsage := memoryUsage - |item|;
      stack := stack[..index] + stack[index + 1..];
      return true;
    }
  }

  /** How the loop goes on after an instruction. */
  datatype Action = Go(jump: nat) | Stop(result: ScriptResult) | Fault(error: RuntimeError)

  /** The stack and the action are what the meaning of the instruction says. */
  ghost predicate Agrees(outcome: Outcome, action: Action, stack: seq<Blob>) {
    match outcome
    case Next(s, jump) => action == Go(jump) && stack == s
    case Halt(result) => action == Stop(result)
    case Raise(error) => action == Fault(error)
  }

  method PushItem(s: Stack, item: Blob) returns (action: Action)
    requires s.Valid()
    modifies s
    ensures s.Valid() && Agrees(PushOn(old(s.stack), item, s.maxMemory), action, s.stack)
  {
    var ok := s.Push(item);
    action := if ok then Go(0) else Fault(OutOfMemory);
  }

  method ReplaceTop(s: Stack, f: Blob -> Blob) returns (action: Action)
    requires s.Valid()
    modifies s
    ensures s.Valid() && Agrees(Replace(old(s.stack), f, s.maxMemory), action, s.stack)
  {
    var item := s.Pop();
    if item.None? {
      return Fault(StackUnderflow);
    }
    action := PushItem(s, f(item.value));
  }

  method StepBranch(s: Stack, offset: nat, taken: bool) returns (action: Action)
    requires s.Valid()
    modifies s
    ensures s.Valid() && Agrees(Branch(old(s.stack), offset, taken), action, s.stack)
  {
    var item := s.Pop();
    if item.None? {
      return Fault(StackUnderflow);
    }
    action := Go(if Truth(item.value) == taken then offset else 0);
  }

  method StepShuffle(s: Stack, i: Instruction) returns (action: Action)
    requires s.Valid() && (i.Eq? || i.Dup? || i.Swap? || i.Copy? || i.Drop? || i.Pop?)
    modifies s
    ensures s.Valid() && Agrees(Shuffle(i, old(s.stack), s.maxMemory), action, s.stack)
  {
    hide Total;
    match i {
      case Pop =>
        var item := s.Pop();
        action := if item.None? then Fault(StackUnderflow) else Go(0);
      case Eq =>
        action := StepEq(s);
      case Dup =>
        action := StepDup(s);
      case Swap =>
        action := StepSwap(s);
      case Copy(index) =>
        if |s.stack| <= index {
          return Fault(StackUnderflow);
        }
        action := PushItem(s, s.stack[|s.stack| - 1 - index]);
      case Drop(index) =>
        var ok := s.Remove(index);
        action := if ok then Go(0) else Fault(IndexOutOfBound);
    }
  }

  method StepEq(s: Stack) returns (action: Action)
    requires s.Valid()
    modifies s
    ensures s.Valid() && Agrees(Shuffle(Eq, old(s.stack), s.maxMemory), action, s.stack)
  {
    hide Total;
    var first := s.Pop();
    if first.None? {
      return Fault(StackUnderflow);
    }
    var second := s.Pop();
    if second.None? {
      return Fault(StackUnderflow);
    }
    assert s.stack == old(s.stack)[..|old(s.stack)| - 2];
    action := PushItem(s, FromBool(first.value == second.value));
  }

  method StepDup(s: Stack) returns (action: Action)
    requires s.Valid()
    modifies s
    ensures s.Valid() && Agrees(Shuffle(Dup, old(s.stack), s.maxMemory), action, s.stack)
  {
    hide Total;
    var top := s.Pop();
    if top.None? {
      return Fault(StackUnderflow);
    }
    assert s.stack + [top.value] == old(s.stack);
    TotalPush(s.stack, top.value);
    var ok := s.Push(top.value);
    if !ok {
      return Fault(OutOfMemory);
    }
    action := PushItem(s, top.value);
  }

  method StepSwap(s: Stack) returns (action: Action)
    requires s.Valid()
    modifies s
    ensures s.Valid() && Agrees(Shuffle(Swap, old(s.stack), s.maxMemory), action, s.stack)
  {
    hide Total;
    var first := s.Pop();
    if first.None? {
      return Fault(StackUnderflow);
    }
    ghost var mid := s.stack;
    assert mid + [first.value] == old(s.stack);
    TotalPush(mid, first.value);
    var second := s.Pop();
    if second.None? {
      return Fault(StackUnderflow);
    }
    assert s.stack + [second.value] == mid;
    TotalPush(s.stack, second.value);
    TotalPush(s.stack, first.value);
    var ok := s.Push(first.value);
    if !ok {
      return Fault(OutOfMemory);
    }
    ok := s.Push(second.value);
    action := if ok then Go(0) else Fault(OutOfMemory);
  }

  method StepCheckSig(s: Stack, env: Env) returns (action: Action)
    requires s.Valid()
    modifies s
    ensures s.Valid() && Agrees(CheckSig(env, old(s.stack), s.maxMemory), action, s.stack)
  {
    hide Total;
    var pubkey := s.Pop();
    if pubkey.None? {
      return Fault(StackUnderflow);
    }
    if |pubkey.value| != PUBLIC_LENGTH {
      return Fault(TypeMismatch);
    }
    var tag := s.Pop();
    if tag.None? {
      return Fault(StackUnderflow);
    }
    var hash := env.partialHash(tag.value);
    if hash.None? {
      return Fault(InvalidFilter);
    }
    var signature := s.Pop();
    if signature.None? {
      return Fault(StackUnderflow);
    }
    if |signature.value| != SIGNATURE_LENGTH {
      return Fault(TypeMismatch);
    }
    assert s.stack == old(s.stack)[..|old(s.stack)| - 3];
    action := PushItem(s, [if env.verifier(hash.value)(pubkey.value, signature.value) then 1 else 0]);
  }

  /** Pops `n` items, which must have the given length. */
  method PopItems(s: Stack, n: nat, length: nat) returns (r: Result<seq<Blob>, RuntimeError>)
    requires s.Valid()
    modifies s
    ensures s.Valid()
    ensures match PopMany(old(s.stack), n, length)
            case Ok((items, rest)) => r == Ok(items) && s.stack == rest
            case Err(e) => r == Err(e)
  {
    hide Total;
    var items := [];
    AfterNone(PopMany(s.stack, n, length));
    for i := 0 to n
      invariant s.Valid()
      invariant PopMany(old(s.stack), n, length) == After(items, PopMany(s.stack, n - i, length))
    {
      var item := s.Pop();
      if item.None? {
        return Err(StackUnderflow);
      }
      if |item.value| != length {
        return Err(TypeMismatch);
      }
      AfterOne(items, item.value, PopMany(s.stack, n - i - 1, length));
      items := items + [item.value];
    }
    assert items + [] == items;
    r := Ok(items);
  }

  /** The items popped so far, followed by those still to come. */
  function After(items: seq<Blob>, more: Result<(seq<Blob>, seq<Blob>), RuntimeError>): Result<(seq<Blob>, seq<Blob>), RuntimeError> {
    match more
    case Ok((later, rest)) => Ok((items + later, rest))
    case Err(e) => Err(e)
  }

  lemma AfterNone(more: Result<(seq<Blob>, seq<Blob>), RuntimeError>)
    ensures After([], more) == more
  {
    assert more.Ok? ==> [] + more.value.0 == more.value.0;
  }

  lemma AfterOne(items: seq<Blob>, item: Blob, more: Result<(seq<Blob>, seq<Blob>), RuntimeError>)
    ensures After(items + [item], more) == After(items, After([item], more))
  {
    if more.Ok? {
      assert items + [item] + more.value.0 == items + ([item] + more.value.0);
    }
  }

  method StepCheckSigs(s: Stack, env: Env) returns (action: Action)
    requires s.Valid()
    modifies s
    ensures s.Valid() && Agrees(CheckSigs(env, old(s.stack), s.maxMemory), action, s.stack)
  {
    hide Total, PopMany, CheckSigsOf;
    var n := s.Pop();
    if n.None? {
      return Fault(StackUnderflow);
    }
    if |n.value| != 1 {
      return Fault(TypeMismatch);
    }
    var keys := PopItems(s, n.value[0], PUBLIC_LENGTH);
    if keys.Err? {
      return Fault(keys.error);
    }
    action := StepCheckSigsOf(s, env, keys.value);
  }

  method StepCheckSigsOf(s: Stack, env: Env, keys: seq<Blob>) returns (action: Action)
    requires s.Valid()
    modifies s
    ensures s.Valid() && Agrees(CheckSigsOf(env, keys, old(s.stack), s.maxMemory), action, s.stack)
  {
    hide Total, PopMany, Greedy;
    var m := s.Pop();
    if m.None? {
      return Fault(StackUnderflow);
    }
    if |m.value| != 1 {
      return Fault(TypeMismatch);
    }
    if m.value[0] > |keys| || m.value[0] == 0 || m.value[0] > 6 {
      return Fault(InvalidSigCount);
    }
    var sigs := PopItems(s, m.value[0], SIGNATURE_LENGTH);
    if sigs.Err? {
      return Fault(sigs.error);
    }
    var tag := s.Pop();
    if tag.None? {
      return Fault(StackUnderflow);
    }
    var hash := env.partialHash(tag.value);
    if hash.None? {
      return Fault(InvalidFilter);
    }
    var ok := CheckMultiSig(env.verifier(hash.value), keys, sigs.value);
    action := PushItem(s, [if ok then 1 else 0]);
  }

  method StepTimelock(s: Stack, env: Env, kind: Byte) returns (action: Action)
    requires s.Valid()
    modifies s
    ensures s.Valid() && Agrees(CheckTimelock(env, kind, old(s.stack), s.maxMemory), action, s.stack)
  {
    hide Total;
    var item := s.Pop();
    if item.None? {
      return Fault(StackUnderflow);
    }
    if |item.value| > 8 {
      return Fault(TypeMismatch);
    }
    var value := ReadU64(item.value);
    match kind {
      case 1 => action := PushItem(s, FromBool(env.parentNumber >= value));
      case 2 => action := PushItem(s, FromBool(env.blockAge.Some? && env.blockAge.value >= value));
      case 3 => action := PushItem(s, FromBool(env.parentTimestamp >= value));
      case 4 => action := PushItem(s, FromBool(env.timeAge.Some? && env.timeAge.value >= value));
      case _ => action := Fault(InvalidTimelockType);
    }
  }

  /** Right-aligned in eight bytes and read as a big-endian number. */
  function ReadU64(item: Blob): (value: nat)
    requires |item| <= 8
    ensures value == BigEndian(item)
  {
    Padded(item, 8 - |item|);
    BigEndian(Zeros(8 - |item|) + item)
  }

  function Zeros(n: nat): seq<Byte> { seq(n, _ => 0) }

  lemma {:induction false} Padded(item: Blob, n: nat)
    ensures BigEndian(Zeros(n) + item) == BigEndian(item)
    decreases |item| + n
  {
    if item != [] {
      var init := item[..|item| - 1];
      assert (Zeros(n) + item)[..n + |item| - 1] == Zeros(n) + init;
      Padded(init, n);
    } else if n > 0 {
      assert (Zeros(n) + item)[..n - 1] == Zeros(n - 1) + [];
      Padded([], n - 1);
    }
  }

  method StepOne(s: Stack, i: Instruction, env: Env) returns (action: Action)
    requires s.Valid()
    modifies s
    ensures s.Valid() && Agrees(Step(i, env, old(s.stack), s.maxMemory), action, s.stack)
  {
    hide Total, Stack.Valid, PushOn, Replace, Branch, CheckSig, CheckSigs, CheckTimelock, Shuffle;
    match i {
      case Nop => action := Go(0);
      case Burn => action := Stop(Burnt);
      case Success => action := Stop(Unlocked);
      case Fail => action := Stop(Rejected);
      case Not => action := ReplaceTop(s, Negate);
      case Jmp(v) => action := Go(v);
      case Jnz(v) => action := StepBranch(s, v, true);
      case Jz(v) => action := StepBranch(s, v, false);
      case Push(v) => action := PushItem(s, [v]);
      case PushB(blob) => action := PushItem(s, blob);
      case ChkSig => action := StepCheckSig(s, env);
      case ChkMultiSig => action := StepCheckSigs(s, env);
      case Blake256 => action := ReplaceTop(s, env.blake256);
      case Sha256 => action := ReplaceTop(s, env.sha256);
      case Ripemd160 => action := ReplaceTop(s, env.ripemd160);
      case Keccak256 => action := ReplaceTop(s, env.keccak256);
      case Blake160 => action := ReplaceTop(s, env.blake160);
      case ChkTimelock(kind) => action := StepTimelock(s, env, kind);
      case _ => action := StepShuffle(s, i);
    }
  }

  // ----- execution -----

  function ExpensiveCount(script: seq<Instruction>): nat {
    if script == [] then 0 else (if script[0].ChkSig? || script[0].ChkMultiSig? then 1 else 0) + ExpensiveCount(script[1..])
  }

  predicate HasExpensiveOpcodes(script: seq<Instruction>) { ExpensiveCount(script) >= 6 }

  /** A script of pushes contains nothing expensive. */
  lemma {:induction false} PushesAreCheap(script: seq<Instruction>)
    requires IsValidUnlockScript(script)
    ensures ExpensiveCount(script) == 0
  {
    if script != [] {
      assert IsPush(script[0]);
      PushesAreCheap(script[1..]);
    }
  }

  function ParamScript(params: seq<Blob>): (script: seq<Instruction>)
    ensures IsValidUnlockScript(script) && PushedItems(script) == Reverse(params)
  {
    seq(|params|, k requires 0 <= k < |params| => PushB(params[|params| - 1 - k]))
  }

  /** Runs a script. Every instruction is executed at most once. */
  method RunScript(script: seq<Instruction>, env: Env, maxMemory: nat)
      returns (r: Result<ScriptResult, RuntimeError>, ghost steps: nat)
    ensures r == Run(script, 0, [], env, maxMemory) && steps <= |script|
  {
    hide Step, Total;
    var s := new Stack(maxMemory);
    var pc := 0;
    steps := 0;
    while pc < |script|
      invariant fresh(s) && s.Valid() && s.maxMemory == maxMemory && steps <= pc && steps <= |script|
      invariant Run(script, 0, [], env, maxMemory) == Run(script, pc, s.stack, env, maxMemory)
      decreases |script| - pc
    {
      steps := steps + 1;
      var action := StepOne(s, script[pc], env);
      match action {
        case Stop(result) => return Ok(result), steps;
        case Fault(error) => return Err(error), steps;
        case Go(jump) => pc := pc + jump + 1;
      }
    }
    var result := s.Pop();
    if result.None? {
      return Err(StackUnderflow), steps;
    }
    r := Ok(if Truth(result.value) && |s.stack| == 0 then Unlocked else Rejected);
  }

  /** Executes the concatenated scripts: the same as running the lock script on what the unlock script and
      the parameters push, the first parameter on top. */
  method Execute(unlock: seq<Instruction>, params: seq<Blob>, lock: seq<Instruction>, env: Env, maxMemory: nat)
      returns (r: Result<ScriptResult, RuntimeError>, ghost steps: nat)
    ensures !IsValidUnlockScript(unlock) ==> r == Ok(Rejected)
    ensures IsValidUnlockScript(unlock) ==>
              var initial := PushedItems(unlock) + Reverse(params);
              r == if Total(initial) > maxMemory then Err(OutOfMemory) else Run(lock, 0, initial, env, maxMemory)
    ensures steps <= |unlock| + |params| + |lock|
  {
    r, steps := Ok(Rejected), 0;
    if !IsValidUnlockScript(unlock) {
      return;
    }
    PushesAreCheap(unlock);
    if HasExpensiveOpcodes(unlock) {
      return;
    }
    var pushes := unlock + ParamScript(params);
    assert PushedItems(pushes) == PushedItems(unlock) + Reverse(params);
    assert [] + PushedItems(pushes) == PushedItems(pushes);
    RunPushes(pushes, lock, [], env, maxMemory);
    r, steps := RunScript(pushes + lock, env, maxMemory);
  }
}
