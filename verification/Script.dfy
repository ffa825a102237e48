/** Scripts and their byte encoding (vm/src/instruction.rs, vm/src/opcode.rs, vm/src/decoder.rs). */
module Script {
  import opened Prelude

  datatype Instruction =
    | Nop | Burn | Success | Fail | Not | Eq
    | Jmp(offset: Byte) | Jnz(offset: Byte) | Jz(offset: Byte)
    | Push(value: Byte) | Pop | PushB(blob: seq<Byte>) | Dup | Swap | Copy(index: Byte) | Drop(index: Byte)
    | ChkSig | ChkMultiSig
    | Blake256 | Sha256 | Ripemd160 | Keccak256 | Blake160
    | ChkTimelock(kind: Byte)

  function Opcode(i: Instruction): Byte {
    match i
    case Nop => 0x00 case Burn => 0x01 case Success => 0x02 case Fail => 0x03
    case Not => 0x10 case Eq => 0x11
    case Jmp(_) => 0x20 case Jnz(_) => 0x21 case Jz(_) => 0x22
    case Push(_) => 0x30 case Pop => 0x31 case PushB(_) => 0x32 case Dup => 0x33 case Swap => 0x34
    case Copy(_) => 0x35 case Drop(_) => 0x36
    case ChkSig => 0x80 case ChkMultiSig => 0x81
    case Blake256 => 0x90 case Sha256 => 0x91 case Ripemd160 => 0x92 case Keccak256 => 0x93 case Blake160 => 0x94
    case ChkTimelock(_) => 0xb0
  }

  /** The instruction can be written down: a blob has at most 255 bytes, and there are four kinds of timelock. */
  predicate Encodable(i: Instruction) {
    match i
    case PushB(blob) => |blob| < 256
    case ChkTimelock(kind) => 1 <= kind <= 4
    case _ => true
  }

  function Operand(i: Instruction): seq<Byte>
    requires Encodable(i)
  {
    match i
    case Jmp(v) => [v] case Jnz(v) => [v] case Jz(v) => [v]
    case Push(v) => [v] case Copy(v) => [v] case Drop(v) => [v]
    case PushB(blob) => [|blob|] + blob
    case ChkTimelock(v) => [v]
    case _ => []
  }

  function EncodeOne(i: Instruction): seq<Byte>
    requires Encodable(i)
  {
    [Opcode(i)] + Operand(i)
  }

  /** The bytes of every instruction. */
  lemma WireFormat(v: Byte, blob: seq<Byte>)
    requires |blob| < 256
    ensures EncodeOne(Nop) == [0x00] && EncodeOne(Burn) == [0x01] && EncodeOne(Success) == [0x02] && EncodeOne(Fail) == [0x03]
    ensures EncodeOne(Not) == [0x10] && EncodeOne(Eq) == [0x11]
    ensures EncodeOne(Jmp(v)) == [0x20, v] && EncodeOne(Jnz(v)) == [0x21, v] && EncodeOne(Jz(v)) == [0x22, v]
    ensures EncodeOne(Instruction.Push(v)) == [0x30, v] && EncodeOne(Pop) == [0x31] && EncodeOne(PushB(blob)) == [0x32, |blob|] + blob
    ensures EncodeOne(Dup) == [0x33] && EncodeOne(Swap) == [0x34] && EncodeOne(Copy(v)) == [0x35, v] && EncodeOne(Drop(v)) == [0x36, v]
    ensures EncodeOne(ChkSig) == [0x80] && EncodeOne(ChkMultiSig) == [0x81]
    ensures EncodeOne(Blake256) == [0x90] && EncodeOne(Sha256) == [0x91] && EncodeOne(Ripemd160) == [0x92]
    ensures EncodeOne(Keccak256) == [0x93] && EncodeOne(Blake160) == [0x94]
    ensures 1 <= v <= 4 ==> EncodeOne(ChkTimelock(v)) == [0xb0, v]
  {
  }

  lemma EncodedNonEmpty(i: Instruction)
    requires Encodable(i)
    ensures EncodeOne(i) != []
  {
  }

  predicate AllEncodable(program: seq<Instruction>) { forall k :: 0 <= k < |program| ==> Encodable(program[k]) }

  function Encode(program: seq<Instruction>): seq<Byte>
    requires AllEncodable(program)
  {
    if program == [] then [] else EncodeOne(program[0]) + Encode(program[1..])
  }

  lemma {:induction false} EncodeAppend(a: seq<Instruction>, b: seq<Instruction>)
    requires AllEncodable(a) && AllEncodable(b)
    ensures AllEncodable(a + b) && Encode(a + b) == Encode(a) + Encode(b)
  {
    hide EncodeOne, Encodable;
    if a == [] {
      assert a + b == b;
    } else {
      assert (a + b)[1..] == a[1..] + b;
      EncodeAppend(a[1..], b);
    }
  }

  predicate TakesOperand(b: Byte) { 0x20 <= b <= 0x22 || b == 0x30 || b == 0x32 || 0x35 <= b <= 0x36 || b == 0xb0 }

  /** The opcode and the first byte after it tell how long the operand is. */
  lemma OperandLength(i: Instruction)
    requires Encodable(i)
    ensures Operand(i) != [] <==> TakesOperand(Opcode(i))
    ensures Operand(i) != [] ==> |Operand(i)| == if Opcode(i) == 0x32 then 1 + Operand(i)[0] as int else 1
  {
  }

  lemma OperandDecides(i: Instruction, j: Instruction)
    requires Encodable(i) && Encodable(j) && Opcode(i) == Opcode(j) && Operand(i) == Operand(j)
    ensures i == j
  {
    if i.PushB? {
      assert i.blob == Operand(i)[1..] && j.blob == Operand(j)[1..];
    }
    assert Operand(i) != [] ==> Operand(i)[0] == Operand(j)[0];
  }

  /** No instruction's encoding is the beginning of another's. */
  lemma EncodingPrefixFree(i: Instruction, j: Instruction, x: seq<Byte>, y: seq<Byte>)
    requires Encodable(i) && Encodable(j) && EncodeOne(i) + x == EncodeOne(j) + y
    ensures i == j && x == y
  {
    hide Operand, Opcode, Encodable;
    var s := EncodeOne(i) + x;
    assert s[0] == Opcode(i) == Opcode(j);
    OperandLength(i);
    OperandLength(j);
    assert Operand(i) != [] ==> s[1] == Operand(i)[0] == Operand(j)[0];
    assert s[1..|EncodeOne(i)|] == Operand(i) && s[1..|EncodeOne(j)|] == Operand(j);
    OperandDecides(i, j);
    assert x == s[|EncodeOne(i)|..] && y == s[|EncodeOne(j)|..];
  }

  /** A program that is encoded at the beginning of an encoded program is a beginning of it. */
  lemma {:induction false} EncodingUnique(a: seq<Instruction>, b: seq<Instruction>, rest: seq<Byte>)
    requires AllEncodable(a) && AllEncodable(b) && Encode(a) + rest == Encode(b)
    ensures a <= b && rest == Encode(b[|a|..])
    decreases |a|
  {
    hide EncodeOne, Encodable;
    if a != [] {
      assert Encode(a) + rest == EncodeOne(a[0]) + (Encode(a[1..]) + rest);
      EncodedNonEmpty(a[0]);
      assert b != [];
      EncodingPrefixFree(a[0], b[0], Encode(a[1..]) + rest, Encode(b[1..]));
      EncodingUnique(a[1..], b[1..], rest);
      assert b[1..][|a[1..]|..] == b[|a|..];
    } else {
      assert Encode(a) + rest == rest;
      assert b[|a|..] == b;
    }
  }

  ghost predicate Decodes(bytes: seq<Byte>, program: seq<Instruction>) {
    AllEncodable(program) && Encode(program) == bytes
  }

  /** Bytes are the encoding of one program at most. */
  lemma DecodesOnce(bytes: seq<Byte>, p: seq<Instruction>, q: seq<Instruction>)
    requires Decodes(bytes, p) && Decodes(bytes, q)
    ensures p == q
  {
    EncodingUnique(p, q, []);
    EncodingUnique(q, p, []);
  }

  /** Decoding distributes over concatenation when the left part decodes. */
  lemma DecodesConcat(a: seq<Byte>, b: seq<Byte>, p: seq<Instruction>, q: seq<Instruction>)
    requires Decodes(a, p)
    ensures Decodes(a + b, p + q) <==> Decodes(b, q)
    ensures Decodes(a + b, q) ==> p <= q && Decodes(b, q[|p|..])
  {
    if AllEncodable(q) {
      EncodeAppend(p, q);
      assert (a + b)[|a|..] == b && (Encode(p) + Encode(q))[|a|..] == Encode(q);
    }
    if AllEncodable(p + q) {
      assert forall k :: 0 <= k < |q| ==> q[k] == (p + q)[|p| + k];
    }
    if Decodes(a + b, q) {
      EncodingUnique(p, q, b);
    }
  }

  // ----- decoding -----

  datatype DecoderError = ScriptTooShort | InvalidOpCode(opcode: Byte) | InvalidImmediateValue(value: Byte)

  predicate IsOpcode(b: Byte) {
    b <= 0x03 || 0x10 <= b <= 0x11 || 0x20 <= b <= 0x22 || 0x30 <= b <= 0x36 || 0x80 <= b <= 0x81 || 0x90 <= b <= 0x94 || b == 0xb0
  }

  /** What is wrong with the rest of a script, at its first byte. */
  predicate Broken(rest: seq<Byte>, e: DecoderError) {
    && rest != []
    && match e
       case InvalidOpCode(b) => rest[0] == b && !IsOpcode(b)
       case InvalidImmediateValue(v) => rest[0] == 0xb0 && |rest| >= 2 && rest[1] == v && !(1 <= v <= 4)
       case ScriptTooShort => TakesOperand(rest[0]) && (|rest| == 1 || (rest[0] == 0x32 && |rest| - 2 < rest[1]))
  }

  lemma BrokenIsNoProgram(rest: seq<Byte>, e: DecoderError, i: Instruction, more: seq<Byte>)
    requires Broken(rest, e) && Encodable(i)
    ensures rest != EncodeOne(i) + more
  {
    var s := EncodeOne(i) + more;
    assert s[0] == Opcode(i);
    assert Operand(i) != [] ==> s[1] == Operand(i)[0];
  }

  /** Decodes the instruction that starts at `at`. */
  method DecodeOne(bytes: seq<Byte>, at: nat) returns (r: Result<Instruction, DecoderError>, next: nat)
    requires at < |bytes|
    ensures r.Ok? ==> Encodable(r.value) && at < next <= |bytes| && bytes[at..next] == EncodeOne(r.value)
    ensures r.Err? ==> Broken(bytes[at..], r.error)
  {
    hide IsOpcode, EncodeOne, Encodable;
    if bytes[at] == 0x32 {
      r, next := DecodeBlob(bytes, at);
    } else if TakesOperand(bytes[at]) {
      r, next := DecodeImmediate(bytes, at);
    } else {
      r, next := DecodeBare(bytes[at]), at + 1;
      assert bytes[at..next] == [bytes[at]];
    }
  }

  function DecodeBare(b: Byte): (r: Result<Instruction, DecoderError>)
    requires !TakesOperand(b)
    ensures r.Ok? ==> Encodable(r.value) && EncodeOne(r.value) == [b]
    ensures r.Err? ==> r.error == InvalidOpCode(b) && !IsOpcode(b)
  {
    match b
    case 0x00 => Ok(Nop)
    case 0x01 => Ok(Burn)
    case 0x02 => Ok(Success)
    case 0x03 => Ok(Fail)
    case 0x10 => Ok(Not)
    case 0x11 => Ok(Eq)
    case 0x31 => Ok(Pop)
    case 0x33 => Ok(Dup)
    case 0x34 => Ok(Swap)
    case 0x80 => Ok(ChkSig)
    case 0x81 => Ok(ChkMultiSig)
    case 0x90 => Ok(Blake256)
    case 0x91 => Ok(Sha256)
    case 0x92 => Ok(Ripemd160)
    case 0x93 => Ok(Keccak256)
    case 0x94 => Ok(Blake160)
    case _ => Err(InvalidOpCode(b))
  }

  method DecodeImmediate(bytes: seq<Byte>, at: nat) returns (r: Result<Instruction, DecoderError>, next: nat)
    requires at < |bytes| && TakesOperand(bytes[at]) && bytes[at] != 0x32
    ensures r.Ok? ==> Encodable(r.value) && next == at + 2 <= |bytes| && bytes[at..next] == EncodeOne(r.value)
    ensures r.Err? ==> Broken(bytes[at..], r.error)
  {
    next := at + 2;
    if |bytes| < next {
      return Err(ScriptTooShort), next;
    }
    var v := bytes[at + 1];
    match bytes[at] {
      case 0x20 => r := Ok(Jmp(v));
      case 0x21 => r := Ok(Jnz(v));
      case 0x22 => r := Ok(Jz(v));
      case 0x30 => r := Ok(Instruction.Push(v));
      case 0x35 => r := Ok(Copy(v));
      case 0x36 => r := Ok(Drop(v));
      case _ =>
        if v < 1 || v > 4 {
          return Err(InvalidImmediateValue(v)), next;
        }
        r := Ok(ChkTimelock(v));
    }
  }

  method DecodeBlob(bytes: seq<Byte>, at: nat) returns (r: Result<Instruction, DecoderError>, next: nat)
    requires at < |bytes| && bytes[at] == 0x32
    ensures r.Ok? ==> Encodable(r.value) && at < next <= |bytes| && bytes[at..next] == EncodeOne(r.value)
    ensures r.Err? ==> Broken(bytes[at..], r.error)
  {
    next := at + 2;
    if |bytes| < next {
      return Err(ScriptTooShort), next;
    }
    var len := bytes[at + 1];
    var blob := [];
    for i := 0 to len
      invariant next == at + 2 + i <= |bytes| && blob == bytes[at + 2..next]
    {
      if next == |bytes| {
        return Err(ScriptTooShort), next;
      }
      blob := blob + [bytes[next]];
      next := next + 1;
    }
    r := Ok(PushB(blob));
  }

  /** Decodes a script: succeeds with the one program whose encoding the bytes are, or tells where they stop
      being one. */
  method Decode(bytes: seq<Byte>) returns (r: Result<seq<Instruction>, DecoderError>)
    ensures r.Ok? ==> Decodes(bytes, r.value)
    ensures r.Err? ==> !exists p :: Decodes(bytes, p)
    ensures r.Err? ==> exists done :: AllEncodable(done) && Encode(done) <= bytes && Broken(bytes[|Encode(done)|..], r.error)
  {
    var result := [];
    var at := 0;
    while at < |bytes|
      invariant at <= |bytes| && AllEncodable(result) && Encode(result) == bytes[..at]
    {
      var one, next := DecodeOne(bytes, at);
      if one.Err? {
        NoProgram(bytes, result, at, one.error);
        assert Encode(result) <= bytes && |Encode(result)| == at;
        return Err(one.error);
      }
      EncodeAppend(result, [one.value]);
      assert Encode([one.value]) == EncodeOne(one.value) + Encode([]);
      assert bytes[..next] == bytes[..at] + bytes[at..next];
      result, at := result + [one.value], next;
    }
    assert bytes[..at] == bytes;
    r := Ok(result);
  }

  lemma NoProgram(bytes: seq<Byte>, done: seq<Instruction>, at: nat, e: DecoderError)
    requires at < |bytes| && AllEncodable(done) && Encode(done) == bytes[..at] && Broken(bytes[at..], e)
    ensures !exists p :: Decodes(bytes, p)
  {
    forall p | AllEncodable(p) ensures Encode(p) != bytes {
      if Encode(p) == bytes {
        assert bytes == bytes[..at] + bytes[at..];
        EncodingUnique(done, p, bytes[at..]);
        var rest := p[|done|..];
        BrokenIsNoProgram(bytes[at..], e, rest[0], Encode(rest[1..]));
      }
    }
  }
}
