/**
 * The byte-level QVM decoder: nom-style parsers over a byte slice, one per
 * opcode, the instruction dispatcher, a repeated decoder and the header parser.
 */
module Parser {
  import opened LittleEndian
  import O = Opcodes
  import opened Bytecode

  // ---------------------------------------------------------------------------
  // Parse results and the primitive parsers
  // ---------------------------------------------------------------------------

  /** The error kinds this decoder can raise. */
  datatype ErrorKind =
    | Tag    // the input does not start with the expected tag
    | Alt    // no alternative of a choice applies
    | Count  // an item of a repetition failed

  /**
   * The outcome of a parser: the remaining input and the value, an error,
   * or a request for more input. The size of the request is not modelled.
   */
  datatype IResult<+T> = Done(rest: seq<Byte>, value: T) | Error(kind: ErrorKind) | Incomplete
  {
    predicate IsFailure() {
      !Done?
    }

    function PropagateFailure<U>(): IResult<U>
      requires !Done?
    {
      if Error? then Error(kind) else Incomplete
    }

    function Extract(): Parsed<T>
      requires Done?
    {
      Parsed(rest, value)
    }
  }

  /** A successful parse: the remaining input and the value. */
  datatype Parsed<+T> = Parsed(rest: seq<Byte>, value: T)

  function Min(a: nat, b: nat): nat {
    if a < b then a else b
  }

  /**
   * `tag!`: the input must start with `t`. The common prefix is compared
   * first, so a mismatch within the available bytes is an error even when
   * the input is shorter than the tag.
   */
  function ParseTag(t: seq<Byte>, input: seq<Byte>): (r: IResult<seq<Byte>>)
    ensures r.Done? <==> |t| <= |input| && input[..|t|] == t
    ensures r.Done? ==> r.rest == input[|t|..] && r.value == t
    ensures r.Error? <==> input[..Min(|input|, |t|)] != t[..Min(|input|, |t|)]
    ensures r.Error? ==> r.kind == Tag
  {
    var m := Min(|input|, |t|);
    if input[..m] != t[..m] then Error(Tag)
    else if m < |t| then Incomplete
    else Done(input[|t|..], input[..|t|])
  }

  /** `le_u8`: one byte. */
  function ParseLeU8(input: seq<Byte>): (r: IResult<Byte>)
    ensures r.Done? <==> 1 <= |input|
    ensures r.Done? ==> r.rest == input[1..] && r.value == LeValue(input[..1])
    ensures !r.Error?
  {
    if |input| < 1 then Incomplete else Done(input[1..], input[0])
  }

  /** `le_u32`: four bytes, least-significant first. */
  function ParseLeU32(input: seq<Byte>): (r: IResult<U32>)
    ensures r.Done? <==> 4 <= |input|
    ensures r.Done? ==> r.rest == input[4..] && r.value == LeValue(input[..4])
    ensures !r.Error?
  {
    if |input| < 4 then Incomplete else Done(input[4..], LeU32(input[..4]))
  }

  /** `le_i32`: four bytes, least-significant first, as a two's-complement value. */
  function ParseLeI32(input: seq<Byte>): (r: IResult<I32>)
    ensures r.Done? <==> 4 <= |input|
    ensures r.Done? ==> r.rest == input[4..] && r.value == ToI32(LeValue(input[..4]))
    ensures !r.Error?
  {
    match ParseLeU32(input)
    case Done(rest, u) => Done(rest, ToI32(u))
    case Error(e) => Error(e)
    case Incomplete => Incomplete
  }

  // ---------------------------------------------------------------------------
  // The per-opcode parser schemas and their sixty instances
  // ---------------------------------------------------------------------------

  /** `op!`: the byte of `op`, standing for the operand-less instruction `ins`. */
  function Op(op: O.Opcode, ins: Instruction, input: seq<Byte>): (r: IResult<Instruction>)
    ensures input == [] ==> r == Incomplete
    ensures input != [] && input[0] != O.OpByte(op) ==> r == Error(Tag)
    ensures input != [] && input[0] == O.OpByte(op) ==> r == Done(input[1..], ins)
  {
    match ParseTag([O.OpByte(op)], input)
    case Done(rest, _) => Done(rest, ins)
    case Error(e) => Error(e)
    case Incomplete => Incomplete
  }

  /** `op_fn!`: the byte of `op`, then an operand read by `operand` and wrapped by `ins`. */
  function OpFn<T>(op: O.Opcode, operand: seq<Byte> -> IResult<T>, ins: T -> Instruction,
                   input: seq<Byte>): IResult<Instruction>
  {
    match ParseTag([O.OpByte(op)], input)
    case Error(e) => Error(e)
    case Incomplete => Incomplete
    case Done(rest, _) =>
      match operand(rest)
      case Done(rest', x) => Done(rest', ins(x))
      case Error(e) => Error(e)
      case Incomplete => Incomplete
  }

  /** `op_u32!`: an opcode with a little-endian 32-bit operand. */
  function OpU32(op: O.Opcode, ins: U32 -> Instruction, input: seq<Byte>): (r: IResult<Instruction>)
    ensures input == [] ==> r == Incomplete
    ensures input != [] && input[0] != O.OpByte(op) ==> r == Error(Tag)
    ensures input != [] && input[0] == O.OpByte(op) ==>
      r == if |input| < 5 then Incomplete else Done(input[5..], ins(LeU32(input[1..5])))
  {
    assert |input| >= 5 ==> input[1..][..4] == input[1..5] && input[1..][4..] == input[5..];
    OpFn(op, ParseLeU32, ins, input)
  }

  /** `op_u8!`: an opcode with an 8-bit operand. */
  function OpU8(op: O.Opcode, ins: Byte -> Instruction, input: seq<Byte>): (r: IResult<Instruction>)
    ensures input == [] ==> r == Incomplete
    ensures input != [] && input[0] != O.OpByte(op) ==> r == Error(Tag)
    ensures input != [] && input[0] == O.OpByte(op) ==>
      r == if |input| < 2 then Incomplete else Done(input[2..], ins(input[1]))
  {
    OpFn(op, ParseLeU8, ins, input)
  }

  /**
   * What the parser for `op` does, read off the opcode table: check the tag
   * byte, then read as many operand bytes as the opcode's operand width.
   */
  function ExpectedParse(op: O.Opcode, input: seq<Byte>): IResult<Instruction>
  {
    var w := OperandWidth(op);
    if input == [] then Incomplete
    else if input[0] != O.OpByte(op) then Error(Tag)
    else if |input| < 1 + w then Incomplete
    else Done(input[1 + w..], Make(op, LeValue(input[1..1 + w])))
  }

  /**
   * The per-opcode parsers `op_undef` ... `op_cvfi`: `OpParse(op, _)` is the
   * parser instantiated for `op`. Each one behaves as the opcode table says.
   */
  function OpParse(op: O.Opcode, input: seq<Byte>): (r: IResult<Instruction>)
    ensures r == ExpectedParse(op, input)
  {
    Pow256Widths();
    match op
    case UNDEF => Op(op, UNDEF, input)
    case IGNORE => Op(op, IGNORE, input)
    case BREAK => Op(op, BREAK, input)
    case ENTER => OpU32(op, (x: U32) => ENTER(x), input)
    case LEAVE => OpU32(op, (x: U32) => LEAVE(x), input)
    case CALL => Op(op, CALL, input)
    case PUSH => Op(op, PUSH, input)
    case POP => Op(op, POP, input)
    case CONST => OpU32(op, (x: U32) => CONST(x), input)
    case LOCAL => OpU32(op, (x: U32) => LOCAL(x), input)
    case JUMP => Op(op, JUMP, input)
    case EQ => OpU32(op, (x: U32) => EQ(x), input)
    case NE => OpU32(op, (x: U32) => NE(x), input)
    case LTI => OpU32(op, (x: U32) => LTI(x), input)
    case LEI => OpU32(op, (x: U32) => LEI(x), input)
    case GTI => OpU32(op, (x: U32) => GTI(x), input)
    case GEI => OpU32(op, (x: U32) => GEI(x), input)
    case LTU => OpU32(op, (x: U32) => LTU(x), input)
    case LEU => OpU32(op, (x: U32) => LEU(x), input)
    case GTU => OpU32(op, (x: U32) => GTU(x), input)
    case GEU => OpU32(op, (x: U32) => GEU(x), input)
    case EQF => OpU32(op, (x: U32) => EQF(x), input)
    case NEF => OpU32(op, (x: U32) => NEF(x), input)
    case LTF => OpU32(op, (x: U32) => LTF(x), input)
    case LEF => OpU32(op, (x: U32) => LEF(x), input)
    case GTF => OpU32(op, (x: U32) => GTF(x), input)
    case GEF => OpU32(op, (x: U32) => GEF(x), input)
    case LOAD1 => Op(op, LOAD1, input)
    case LOAD2 => Op(op, LOAD2, input)
    case LOAD4 => Op(op, LOAD4, input)
    case STORE1 => Op(op, STORE1, input)
    case STORE2 => Op(op, STORE2, input)
    case STORE4 => Op(op, STORE4, input)
    case ARG => OpU8(op, (x: Byte) => ARG(x), input)
    case BLOCK_COPY => OpU32(op, (x: U32) => BLOCK_COPY(x), input)
    case SEX8 => Op(op, SEX8, input)
    case SEX16 => Op(op, SEX16, input)
    case NEGI => Op(op, NEGI, input)
    case ADD => Op(op, ADD, input)
    case SUB => Op(op, SUB, input)
    case DIVI => Op(op, DIVI, input)
    case DIVU => Op(op, DIVU, input)
    case MODI => Op(op, MODI, input)
    case MODU => Op(op, MODU, input)
    case MULI => Op(op, MULI, input)
    case MULU => Op(op, MULU, input)
    case BAND => Op(op, BAND, input)
    case BOR => Op(op, BOR, input)
    case BXOR => Op(op, BXOR, input)
    case BCOM => Op(op, BCOM, input)
    case LSH => Op(op, LSH, input)
    case RSHI => Op(op, RSHI, input)
    case RSHU => Op(op, RSHU, input)
    case NEGF => Op(op, NEGF, input)
    case ADDF => Op(op, ADDF, input)
    case SUBF => Op(op, SUBF, input)
    case DIVF => Op(op, DIVF, input)
    case MULF => Op(op, MULF, input)
    case CVIF => Op(op, CVIF, input)
    case CVFI => Op(op, CVFI, input)
  }

  // ---------------------------------------------------------------------------
  // The dispatcher `ins`
  // ---------------------------------------------------------------------------

  /**
   * `alt!`: try the parsers of `alternatives` in order; the first result that
   * is not an error is the result, and if every one fails the choice fails.
   */
  function Alt(alternatives: seq<O.Opcode>, input: seq<Byte>): (r: IResult<Instruction>)
    ensures r.Error? ==> r.kind == ErrorKind.Alt
    decreases |alternatives|
  {
    if alternatives == [] then Error(ErrorKind.Alt)
    else
      match OpParse(alternatives[0], input)
      case Error(_) => Alt(alternatives[1..], input)
      case r => r
  }

  /** The alternatives of `ins`, in the order they are written. */
  const InsAlternatives: seq<O.Opcode> :=
      [O.UNDEF]
      + ([O.IGNORE]
      + ([O.BREAK]
      + ([O.ENTER, O.LEAVE, O.CALL, O.PUSH, O.POP]
      + ([O.CONST, O.LOCAL]
      + ([O.JUMP]
      + ([O.EQ, O.NE]
      + ([O.LTI, O.LEI, O.GTI, O.GEI]
      + ([O.LTU, O.LEU, O.GTU, O.GEU]
      + ([O.EQF, O.NEF]
      + ([O.LTF, O.LEF, O.GTF, O.GEF]
      + ([O.LOAD1, O.LOAD2, O.LOAD4, O.STORE1, O.STORE2, O.STORE4, O.ARG]
      + ([O.BLOCK_COPY]
      + ([O.SEX8, O.SEX16]
      + ([O.NEGI, O.ADD, O.SUB, O.DIVI, O.DIVU, O.MODI, O.MODU, O.MULI, O.MULU]
      + ([O.BAND, O.BOR, O.BXOR, O.BCOM]
      + ([O.LSH, O.RSHI, O.RSHU]
      + ([O.NEGF, O.ADDF, O.SUBF, O.DIVF, O.MULF]
      + ([O.CVIF, O.CVFI]))))))))))))))))))

  /** `ins`: decode one instruction by trying the sixty per-opcode parsers in turn. */
  function Ins(input: seq<Byte>): IResult<Instruction>
  {
    Alt(InsAlternatives, input)
  }

  /** A per-opcode parser fails exactly on a first byte that is not its tag. */
  lemma OpParseFails(op: O.Opcode, input: seq<Byte>)
    ensures OpParse(op, input).Error? <==> input != [] && input[0] != O.OpByte(op)
    ensures input == [] ==> OpParse(op, input) == Incomplete
  {
  }

  /**
   * A per-opcode parser that succeeds consumes exactly its tag and its
   * operand bytes, and yields an instruction of its opcode whose operand is
   * the little-endian value of those bytes.
   */
  lemma OpParseConsumes(op: O.Opcode, input: seq<Byte>)
    requires OpParse(op, input).Done?
    ensures var w := OperandWidth(op);
      var r := OpParse(op, input);
      && |input| == 1 + w + |r.rest|
      && input == [O.OpByte(op)] + input[1..1 + w] + r.rest
      && OpcodeOf(r.value) == op
      && Operand(r.value) == LeValue(input[1..1 + w])
  {
    var w := OperandWidth(op);
    assert input == [input[0]] + input[1..1 + w] + input[1 + w..];
    PartsOfMake(op, LeValue(input[1..1 + w]));
  }

  /** Every opcode is one of the alternatives of `ins`: its place in the list is its byte. */
  lemma InsAlternativesComplete(op: O.Opcode)
    ensures |InsAlternatives| == O.OpcodeCount && InsAlternatives[O.OpByte(op)] == op
    ensures op in InsAlternatives
  {
    assert InsAlternatives == O.Declared;
    O.DeclaredPosition(op);
  }

  /** With no input at all, a choice between per-opcode parsers asks for more. */
  lemma AltOnEmptyInput(alternatives: seq<O.Opcode>)
    requires alternatives != []
    ensures Alt(alternatives, []) == Incomplete
  {
    OpParseFails(alternatives[0], []);
  }

  /**
   * A choice between per-opcode parsers is decided by the first byte alone:
   * when it is the byte of `op`, the parser for `op` gives the result if it
   * is listed, and the choice fails if it is not.
   */
  lemma {:induction false} AltSelects(alternatives: seq<O.Opcode>, op: O.Opcode, input: seq<Byte>)
    requires input != [] && input[0] == O.OpByte(op)
    ensures Alt(alternatives, input) ==
      if op in alternatives then OpParse(op, input) else Error(ErrorKind.Alt)
    decreases |alternatives|
  {
    if alternatives != [] {
      var head := alternatives[0];
      OpParseFails(head, input);
      O.OpByteInjective(head, op);
      AltSelects(alternatives[1..], op, input);
      assert op in alternatives <==> op == head || op in alternatives[1..];
    }
  }

  /** A first byte that is no opcode's byte makes every choice fail. */
  lemma {:induction false} AltRejects(alternatives: seq<O.Opcode>, input: seq<Byte>)
    requires input != [] && input[0] >= O.OpcodeCount
    ensures Alt(alternatives, input) == Error(ErrorKind.Alt)
    decreases |alternatives|
  {
    if alternatives != [] {
      OpParseFails(alternatives[0], input);
      AltRejects(alternatives[1..], input);
    }
  }

  /** The order in which `alt!` lists the per-opcode parsers does not change its outcome. */
  lemma AltOrderIrrelevant(a: seq<O.Opcode>, b: seq<O.Opcode>, input: seq<Byte>)
    requires forall op :: op in a <==> op in b
    ensures Alt(a, input) == Alt(b, input)
  {
    if a != [] {
      assert a[0] in a;
    }
    if b != [] {
      assert b[0] in b;
    }
    if a == [] || b == [] {
    } else if input == [] {
      AltOnEmptyInput(a);
      AltOnEmptyInput(b);
    } else if input[0] >= O.OpcodeCount {
      AltRejects(a, input);
      AltRejects(b, input);
    } else {
      var op := O.FromByte(input[0]).value;
      O.OpByteOfFromByte(input[0]);
      AltSelects(a, op, input);
      AltSelects(b, op, input);
    }
  }

  /**
   * The decoder as a table lookup: the first byte names the opcode, which
   * fixes how many operand bytes follow.
   */
  function DecodeByTable(input: seq<Byte>): IResult<Instruction>
  {
    if input == [] then Incomplete
    else
      match O.FromByte(input[0])
      case None => Error(ErrorKind.Alt)
      case Some(op) => ExpectedParse(op, input)
  }

  /** `ins` decodes exactly as the table lookup does. */
  lemma InsIsTableDriven(input: seq<Byte>)
    ensures Ins(input) == DecodeByTable(input)
  {
    InsAlternativesComplete(O.UNDEF);
    if input == [] {
      AltOnEmptyInput(InsAlternatives);
    } else if input[0] >= O.OpcodeCount {
      AltRejects(InsAlternatives, input);
    } else {
      var op := O.FromByte(input[0]).value;
      O.OpByteOfFromByte(input[0]);
      InsAlternativesComplete(op);
      AltSelects(InsAlternatives, op, input);
    }
  }

  /** On the byte of `op`, `ins` decodes as the parser for `op` does. */
  lemma InsOnOpcode(op: O.Opcode, input: seq<Byte>)
    requires input != [] && input[0] == O.OpByte(op)
    ensures Ins(input) == OpParse(op, input)
  {
    InsIsTableDriven(input);
    O.FromByteOfOpByte(op);
  }

  /**
   * When `ins` succeeds, fails or asks for more: it fails exactly on a first
   * byte that is no opcode, and succeeds exactly when the opcode's operand
   * bytes are all present.
   */
  lemma InsOutcome(input: seq<Byte>)
    ensures Ins(input).Done? <==>
      input != [] && input[0] < O.OpcodeCount
      && 1 + OperandWidth(O.FromByte(input[0]).value) <= |input|
    ensures Ins(input).Error? <==> input != [] && input[0] >= O.OpcodeCount
    ensures Ins(input).Error? ==> Ins(input).kind == ErrorKind.Alt
  {
    InsIsTableDriven(input);
    if input != [] && input[0] < O.OpcodeCount {
      O.OpByteOfFromByte(input[0]);
    }
  }

  // ---------------------------------------------------------------------------
  // The encoding the decoder inverts
  // ---------------------------------------------------------------------------

  /** The on-disk bytes of an instruction: its opcode byte, then its operand. */
  function Encode(i: Instruction): (bytes: seq<Byte>)
    ensures |bytes| == 1 + OperandWidth(OpcodeOf(i))
    ensures bytes[0] == O.OpByte(OpcodeOf(i))
  {
    [O.OpByte(OpcodeOf(i))] + LeBytes(Operand(i), OperandWidth(OpcodeOf(i)))
  }

  /** The on-disk bytes of a sequence of instructions, one after the other. */
  function EncodeAll(instructions: seq<Instruction>): seq<Byte>
  {
    if instructions == [] then [] else Encode(instructions[0]) + EncodeAll(instructions[1..])
  }

  /** Every instruction decodes from its encoding, whatever follows it. */
  lemma InsRoundTrip(i: Instruction, rest: seq<Byte>)
    ensures Ins(Encode(i) + rest) == Done(rest, i)
  {
    var input := Encode(i) + rest;
    var op, w := OpcodeOf(i), OperandWidth(OpcodeOf(i));
    InsIsTableDriven(input);
    O.FromByteOfOpByte(op);
    assert input[1..1 + w] == LeBytes(Operand(i), w);
    assert input[1 + w..] == rest;
    MakeOfParts(i);
  }

  /** What `ins` decodes is exactly the encoding of the instruction it returns. */
  lemma InsSound(input: seq<Byte>)
    requires Ins(input).Done?
    ensures input == Encode(Ins(input).value) + Ins(input).rest
  {
    InsIsTableDriven(input);
    var op := O.FromByte(input[0]).value;
    var w := OperandWidth(op);
    O.OpByteOfFromByte(input[0]);
    var operand := input[1..1 + w];
    PartsOfMake(op, LeValue(operand));
    LeBytesOfValue(operand);
    assert input == [input[0]] + operand + input[1 + w..];
  }

  /** An instruction cut short anywhere inside its encoding is incomplete, never an error. */
  lemma InsTruncated(i: Instruction, k: nat)
    requires k < |Encode(i)|
    ensures Ins(Encode(i)[..k]) == Incomplete
  {
    var input := Encode(i)[..k];
    InsIsTableDriven(input);
    if k > 0 {
      O.FromByteOfOpByte(OpcodeOf(i));
    }
  }

  // ---------------------------------------------------------------------------
  // count!(ins, n)
  // ---------------------------------------------------------------------------

  /**
   * `count!(ins, n)`: decode exactly `n` instructions one after another. An
   * instruction that fails makes the whole repetition fail.
   */
  function DecodeN(input: seq<Byte>, n: nat): (r: IResult<seq<Instruction>>)
    ensures r.Done? ==> |r.value| == n
    ensures r.Error? ==> r.kind == Count
    ensures n > 0 && Ins(input).Error? ==> r == Error(Count)
    ensures n > 0 && Ins(input).Incomplete? ==> r == Incomplete
    decreases n
  {
    if n == 0 then Done(input, [])
    else
      match Ins(input)
      case Error(_) => Error(Count)
      case Incomplete => Incomplete
      case Done(rest, i) =>
        match DecodeN(rest, n - 1)
        case Done(rest', instructions) => Done(rest', [i] + instructions)
        case Error(e) => Error(e)
        case Incomplete => Incomplete
  }

  /** What `DecodeN` consumes is exactly the encoding of the instructions it returns. */
  lemma {:induction false} DecodeNSound(input: seq<Byte>, n: nat)
    requires DecodeN(input, n).Done?
    ensures input == EncodeAll(DecodeN(input, n).value) + DecodeN(input, n).rest
    decreases n
  {
    if n > 0 {
      var r := Ins(input);
      InsSound(input);
      DecodeNSound(r.rest, n - 1);
      var decoded := DecodeN(input, n).value;
      assert decoded[0] == r.value && decoded[1..] == DecodeN(r.rest, n - 1).value;
    }
  }

  /** A run of encoded instructions decodes back to the same instructions. */
  lemma {:induction false} DecodeNRoundTrip(instructions: seq<Instruction>, rest: seq<Byte>)
    ensures DecodeN(EncodeAll(instructions) + rest, |instructions|) == Done(rest, instructions)
    decreases |instructions|
  {
    if instructions != [] {
      var i := instructions[0];
      var tail := EncodeAll(instructions[1..]) + rest;
      assert EncodeAll(instructions) + rest == Encode(i) + tail;
      InsRoundTrip(i, tail);
      DecodeNRoundTrip(instructions[1..], rest);
      assert [i] + instructions[1..] == instructions;
    }
  }

  // ---------------------------------------------------------------------------
  // The header
  // ---------------------------------------------------------------------------

  /** The magic number that opens a QVM file: 0x12721444, least-significant byte first. */
  const VM_MAGIC: seq<Byte> := [0x44, 0x14, 0x72, 0x12]

  /** Read as a little-endian number, the magic is 0x12721444. */
  lemma MagicValue()
    ensures |VM_MAGIC| == 4 && LeValue(VM_MAGIC) == 0x12721444
  {
  }

  /** The header is the magic number and seven 32-bit fields. */
  const HeaderSize: nat := 32

  /** The QVM header, with its fields in the order they are declared. */
  datatype Header = Header(
    instructionCount: I32,
    codeLength: I32,
    codeOffset: I32,
    dataLength: I32,
    dataOffset: I32,
    litLength: I32,
    bssLength: I32)

  /** The two's-complement value of the four bytes at offset `k`. */
  function I32At(s: seq<Byte>, k: nat): I32
    requires k + 4 <= |s|
  {
    ToI32(LeU32(s[k..k + 4]))
  }

  /**
   * `header`: the magic number, then seven little-endian `i32` fields read
   * in file order (count, code offset, code length, data offset, data length,
   * lit length, bss length). No field is checked.
   */
  function ParseHeader(input: seq<Byte>): (r: IResult<Header>)
    ensures r.Done? <==> HeaderSize <= |input| && input[..4] == VM_MAGIC
    ensures r.Error? <==> input[..Min(|input|, 4)] != VM_MAGIC[..Min(|input|, 4)]
    ensures r.Error? ==> r.kind == Tag
    ensures r.Done? ==> r.rest == input[HeaderSize..] && r.value == Header(
      instructionCount := I32At(input, 4),
      codeOffset := I32At(input, 8),
      codeLength := I32At(input, 12),
      dataOffset := I32At(input, 16),
      dataLength := I32At(input, 20),
      litLength := I32At(input, 24),
      bssLength := I32At(input, 28))
  {
    var magic :- ParseTag(VM_MAGIC, input);
    var instructionCount :- ParseLeI32(magic.rest);
    var codeOffset :- ParseLeI32(instructionCount.rest);
    var codeLength :- ParseLeI32(codeOffset.rest);
    var dataOffset :- ParseLeI32(codeLength.rest);
    var dataLength :- ParseLeI32(dataOffset.rest);
    var litLength :- ParseLeI32(dataLength.rest);
    var bssLength :- ParseLeI32(litLength.rest);
    assert input[4..][..4] == input[4..8] && input[4..][4..] == input[8..];
    assert input[8..][..4] == input[8..12] && input[8..][4..] == input[12..];
    assert input[12..][..4] == input[12..16] && input[12..][4..] == input[16..];
    assert input[16..][..4] == input[16..20] && input[16..][4..] == input[20..];
    assert input[20..][..4] == input[20..24] && input[20..][4..] == input[24..];
    assert input[24..][..4] == input[24..28] && input[24..][4..] == input[28..];
    assert input[28..][..4] == input[28..32] && input[28..][4..] == input[32..];
    Done(bssLength.rest, Header(
      instructionCount := instructionCount.value,
      codeLength := codeLength.value,
      codeOffset := codeOffset.value,
      dataLength := dataLength.value,
      dataOffset := dataOffset.value,
      litLength := litLength.value,
      bssLength := bssLength.value))
  }

  /** The four bytes of a two's-complement value, least-significant first. */
  function I32Bytes(v: I32): (bytes: seq<Byte>)
    ensures |bytes| == 4
  {
    Pow256Widths();
    LeBytes(FromI32(v), 4)
  }

  /** The on-disk bytes of a header: the magic number, then the fields in file order. */
  function EncodeHeader(h: Header): seq<Byte>
  {
    VM_MAGIC + I32Bytes(h.instructionCount) + I32Bytes(h.codeOffset) + I32Bytes(h.codeLength)
    + I32Bytes(h.dataOffset) + I32Bytes(h.dataLength) + I32Bytes(h.litLength)
    + I32Bytes(h.bssLength)
  }

  /** A field written as four bytes reads back as the same value. */
  lemma I32BytesRoundTrip(v: I32)
    ensures ToI32(LeU32(I32Bytes(v))) == v
  {
    Pow256Widths();
    I32BitPattern(FromI32(v), v);
  }

  /** Any four bytes are the written form of the field read from them. */
  lemma I32AtBytes(s: seq<Byte>, k: nat)
    requires k + 4 <= |s|
    ensures I32Bytes(I32At(s, k)) == s[k..k + 4]
  {
    Pow256Widths();
    LeBytesOfValue(s[k..k + 4]);
    I32BitPattern(LeU32(s[k..k + 4]), I32At(s, k));
  }

  /** A field written at offset `k` reads back from offset `k`. */
  lemma FieldAt(input: seq<Byte>, k: nat, v: I32, tail: seq<Byte>)
    requires k <= |input| && input[k..] == I32Bytes(v) + tail
    ensures k + 4 <= |input| && I32At(input, k) == v && input[k + 4..] == tail
  {
    assert input[k..k + 4] == input[k..][..4];
    assert input[k + 4..] == input[k..][4..];
    I32BytesRoundTrip(v);
  }

  /** The encoding of a header followed by more bytes, grouped field by field. */
  lemma HeaderLayout(h: Header, rest: seq<Byte>)
    ensures EncodeHeader(h) + rest
      == VM_MAGIC + (I32Bytes(h.instructionCount) + (I32Bytes(h.codeOffset)
         + (I32Bytes(h.codeLength) + (I32Bytes(h.dataOffset) + (I32Bytes(h.dataLength)
         + (I32Bytes(h.litLength) + (I32Bytes(h.bssLength) + rest)))))))
  {
  }

  /** Every header reads back from its encoding, whatever follows it. */
  lemma HeaderRoundTrip(h: Header, rest: seq<Byte>)
    ensures ParseHeader(EncodeHeader(h) + rest) == Done(rest, h)
  {
    var input := EncodeHeader(h) + rest;
    var t7 := I32Bytes(h.bssLength) + rest;
    var t6 := I32Bytes(h.litLength) + t7;
    var t5 := I32Bytes(h.dataLength) + t6;
    var t4 := I32Bytes(h.dataOffset) + t5;
    var t3 := I32Bytes(h.codeLength) + t4;
    var t2 := I32Bytes(h.codeOffset) + t3;
    var t1 := I32Bytes(h.instructionCount) + t2;
    HeaderLayout(h, rest);
    assert input[..4] == VM_MAGIC && input[4..] == t1;
    FieldAt(input, 4, h.instructionCount, t2);
    FieldAt(input, 8, h.codeOffset, t3);
    FieldAt(input, 12, h.codeLength, t4);
    FieldAt(input, 16, h.dataOffset, t5);
    FieldAt(input, 20, h.dataLength, t6);
    FieldAt(input, 24, h.litLength, t7);
    FieldAt(input, 28, h.bssLength, rest);
  }

  /** What `header` consumes is exactly the encoding of the header it returns. */
  lemma HeaderSound(input: seq<Byte>)
    requires ParseHeader(input).Done?
    ensures input == EncodeHeader(ParseHeader(input).value) + ParseHeader(input).rest
  {
    I32AtBytes(input, 4);
    I32AtBytes(input, 8);
    I32AtBytes(input, 12);
    I32AtBytes(input, 16);
    I32AtBytes(input, 20);
    I32AtBytes(input, 24);
    I32AtBytes(input, 28);
    assert input == input[..4] + input[4..8] + input[8..12] + input[12..16] + input[16..20]
      + input[20..24] + input[24..28] + input[28..32] + input[32..];
  }
}
