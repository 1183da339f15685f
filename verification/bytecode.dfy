/** The decoded form of a QVM instruction. */
module Bytecode {
  import opened LittleEndian
  import O = Opcodes

  /** Size of procedure stack adjustment. */
  type FrameSize = U32

  /** Size of memory block to copy. */
  type BlockSize = U32

  /** Offset within stack frame. */
  type FrameOffset = U32

  /** Offset into the outgoing argument area. */
  type ArgOffset = Byte

  /**
   * Absolute instruction offset within the code segment. It is a bare
   * 32-bit value: nothing bounds it by the instruction count.
   */
  type Address = U32

  /** Literal value, kept as its raw 32-bit pattern. */
  type Literal = U32

  /**
   * A QVM instruction: one variant per opcode, with the same names in the
   * same order, each carrying at most one operand.
   */
  datatype Instruction =
      UNDEF
    | IGNORE
    | BREAK
    | ENTER(frameSize: FrameSize) | LEAVE(frameSize: FrameSize) | CALL | PUSH | POP
    | CONST(literal: Literal) | LOCAL(frameOffset: FrameOffset)
    | JUMP
    | EQ(address: Address) | NE(address: Address)
    | LTI(address: Address) | LEI(address: Address) | GTI(address: Address) | GEI(address: Address)
    | LTU(address: Address) | LEU(address: Address) | GTU(address: Address) | GEU(address: Address)
    | EQF(address: Address) | NEF(address: Address)
    | LTF(address: Address) | LEF(address: Address) | GTF(address: Address) | GEF(address: Address)
    | LOAD1 | LOAD2 | LOAD4 | STORE1 | STORE2 | STORE4 | ARG(argOffset: ArgOffset)
    | BLOCK_COPY(blockSize: BlockSize)
    | SEX8 | SEX16
    | NEGI | ADD | SUB | DIVI | DIVU | MODI | MODU | MULI | MULU
    | BAND | BOR | BXOR | BCOM
    | LSH | RSHI | RSHU
    | NEGF | ADDF | SUBF | DIVF | MULF
    | CVIF | CVFI

  /** The opcode an instruction is an instance of. */
  function OpcodeOf(i: Instruction): O.Opcode
  {
    match i
    case UNDEF => O.UNDEF
    case IGNORE => O.IGNORE
    case BREAK => O.BREAK
    case ENTER(_) => O.ENTER
    case LEAVE(_) => O.LEAVE
    case CALL => O.CALL
    case PUSH => O.PUSH
    case POP => O.POP
    case CONST(_) => O.CONST
    case LOCAL(_) => O.LOCAL
    case JUMP => O.JUMP
    case EQ(_) => O.EQ
    case NE(_) => O.NE
    case LTI(_) => O.LTI
    case LEI(_) => O.LEI
    case GTI(_) => O.GTI
    case GEI(_) => O.GEI
    case LTU(_) => O.LTU
    case LEU(_) => O.LEU
    case GTU(_) => O.GTU
    case GEU(_) => O.GEU
    case EQF(_) => O.EQF
    case NEF(_) => O.NEF
    case LTF(_) => O.LTF
    case LEF(_) => O.LEF
    case GTF(_) => O.GTF
    case GEF(_) => O.GEF
    case LOAD1 => O.LOAD1
    case LOAD2 => O.LOAD2
    case LOAD4 => O.LOAD4
    case STORE1 => O.STORE1
    case STORE2 => O.STORE2
    case STORE4 => O.STORE4
    case ARG(_) => O.ARG
    case BLOCK_COPY(_) => O.BLOCK_COPY
    case SEX8 => O.SEX8
    case SEX16 => O.SEX16
    case NEGI => O.NEGI
    case ADD => O.ADD
    case SUB => O.SUB
    case DIVI => O.DIVI
    case DIVU => O.DIVU
    case MODI => O.MODI
    case MODU => O.MODU
    case MULI => O.MULI
    case MULU => O.MULU
    case BAND => O.BAND
    case BOR => O.BOR
    case BXOR => O.BXOR
    case BCOM => O.BCOM
    case LSH => O.LSH
    case RSHI => O.RSHI
    case RSHU => O.RSHU
    case NEGF => O.NEGF
    case ADDF => O.ADDF
    case SUBF => O.SUBF
    case DIVF => O.DIVF
    case MULF => O.MULF
    case CVIF => O.CVIF
    case CVFI => O.CVFI
  }

  /** Number of operand bytes that follow an opcode's byte on disk. */
  function OperandWidth(op: O.Opcode): (w: nat)
    ensures w == 0 || w == 1 || w == 4
  {
    match op
    case ENTER | LEAVE | CONST | LOCAL | EQ | NE | LTI | LEI | GTI | GEI
      | LTU | LEU | GTU | GEU | EQF | NEF | LTF | LEF | GTF | GEF
      | BLOCK_COPY => 4
    case ARG => 1
    case _ => 0
  }

  /**
   * The operand shapes: ARG alone has an 8-bit operand; ENTER, LEAVE, CONST,
   * LOCAL, BLOCK_COPY and the sixteen comparisons have a 32-bit one; every
   * other opcode has none.
   */
  lemma OperandShapes(op: O.Opcode)
    ensures OperandWidth(op) == 0 || OperandWidth(op) == 1 || OperandWidth(op) == 4
    ensures OperandWidth(op) == 1 <==> op == O.ARG
    ensures OperandWidth(op) == 4 <==>
      op in {O.ENTER, O.LEAVE, O.CONST, O.LOCAL, O.BLOCK_COPY} || O.IsComparison(op)
  {
  }

  /** The operand an instruction carries; 0 for a variant without one. */
  function Operand(i: Instruction): (x: nat)
    ensures x < Pow256(OperandWidth(OpcodeOf(i)))
  {
    Pow256Widths();
    match i
    case ENTER(x) => x
    case LEAVE(x) => x
    case CONST(x) => x
    case LOCAL(x) => x
    case EQ(x) => x
    case NE(x) => x
    case LTI(x) => x
    case LEI(x) => x
    case GTI(x) => x
    case GEI(x) => x
    case LTU(x) => x
    case LEU(x) => x
    case GTU(x) => x
    case GEU(x) => x
    case EQF(x) => x
    case NEF(x) => x
    case LTF(x) => x
    case LEF(x) => x
    case GTF(x) => x
    case GEF(x) => x
    case ARG(x) => x
    case BLOCK_COPY(x) => x
    case _ => 0
  }

  /** The instruction of opcode `op` with operand `x`. */
  function Make(op: O.Opcode, x: nat): (i: Instruction)
    requires x < Pow256(OperandWidth(op))
  {
    Pow256Widths();
    match op
    case UNDEF => UNDEF
    case IGNORE => IGNORE
    case BREAK => BREAK
    case ENTER => ENTER(x)
    case LEAVE => LEAVE(x)
    case CALL => CALL
    case PUSH => PUSH
    case POP => POP
    case CONST => CONST(x)
    case LOCAL => LOCAL(x)
    case JUMP => JUMP
    case EQ => EQ(x)
    case NE => NE(x)
    case LTI => LTI(x)
    case LEI => LEI(x)
    case GTI => GTI(x)
    case GEI => GEI(x)
    case LTU => LTU(x)
    case LEU => LEU(x)
    case GTU => GTU(x)
    case GEU => GEU(x)
    case EQF => EQF(x)
    case NEF => NEF(x)
    case LTF => LTF(x)
    case LEF => LEF(x)
    case GTF => GTF(x)
    case GEF => GEF(x)
    case LOAD1 => LOAD1
    case LOAD2 => LOAD2
    case LOAD4 => LOAD4
    case STORE1 => STORE1
    case STORE2 => STORE2
    case STORE4 => STORE4
    case ARG => ARG(x)
    case BLOCK_COPY => BLOCK_COPY(x)
    case SEX8 => SEX8
    case SEX16 => SEX16
    case NEGI => NEGI
    case ADD => ADD
    case SUB => SUB
    case DIVI => DIVI
    case DIVU => DIVU
    case MODI => MODI
    case MODU => MODU
    case MULI => MULI
    case MULU => MULU
    case BAND => BAND
    case BOR => BOR
    case BXOR => BXOR
    case BCOM => BCOM
    case LSH => LSH
    case RSHI => RSHI
    case RSHU => RSHU
    case NEGF => NEGF
    case ADDF => ADDF
    case SUBF => SUBF
    case DIVF => DIVF
    case MULF => MULF
    case CVIF => CVIF
    case CVFI => CVFI
  }

  // PartsOfMake is proved over slices of the declaration, one lemma per
  // slice and a dispatcher that picks the slice, so that each proof stays small.

  lemma PartsOfMakeIn0(op: O.Opcode, x: nat)
    requires op.UNDEF? || op.IGNORE? || op.BREAK? || op.ENTER? || op.LEAVE? || op.CALL? || op.PUSH?
      || op.POP? || op.CONST? || op.LOCAL?
    requires x < Pow256(OperandWidth(op))
    ensures OpcodeOf(Make(op, x)) == op && Operand(Make(op, x)) == x
  {
    Pow256Widths();
    match op {
      case UNDEF => case IGNORE => case BREAK => case ENTER => case LEAVE => case CALL =>
      case PUSH => case POP => case CONST => case LOCAL =>
      case _ =>
    }
  }

  lemma PartsOfMakeIn1(op: O.Opcode, x: nat)
    requires op.JUMP? || op.EQ? || op.NE? || op.LTI? || op.LEI? || op.GTI? || op.GEI? || op.LTU?
    requires x < Pow256(OperandWidth(op))
    ensures OpcodeOf(Make(op, x)) == op && Operand(Make(op, x)) == x
  {
    Pow256Widths();
    match op {
      case JUMP => case EQ => case NE => case LTI => case LEI => case GTI => case GEI => case LTU =>
      case _ =>
    }
  }

  lemma PartsOfMakeIn2(op: O.Opcode, x: nat)
    requires op.LEU? || op.GTU? || op.GEU? || op.EQF? || op.NEF? || op.LTF? || op.LEF?
    requires x < Pow256(OperandWidth(op))
    ensures OpcodeOf(Make(op, x)) == op && Operand(Make(op, x)) == x
  {
    Pow256Widths();
    match op {
      case LEU => case GTU => case GEU => case EQF => case NEF => case LTF => case LEF =>
      case _ =>
    }
  }

  lemma PartsOfMakeIn3(op: O.Opcode, x: nat)
    requires op.GTF? || op.GEF? || op.LOAD1? || op.LOAD2? || op.LOAD4?
    requires x < Pow256(OperandWidth(op))
    ensures OpcodeOf(Make(op, x)) == op && Operand(Make(op, x)) == x
  {
    Pow256Widths();
    match op {
      case GTF => case GEF => case LOAD1 => case LOAD2 => case LOAD4 =>
      case _ =>
    }
  }

  lemma PartsOfMakeIn4(op: O.Opcode, x: nat)
    requires op.STORE1? || op.STORE2? || op.STORE4? || op.ARG?
    requires x < Pow256(OperandWidth(op))
    ensures OpcodeOf(Make(op, x)) == op && Operand(Make(op, x)) == x
  {
    Pow256Widths();
    match op {
      case STORE1 => case STORE2 => case STORE4 => case ARG =>
      case _ =>
    }
  }

  lemma PartsOfMakeIn5(op: O.Opcode, x: nat)
    requires op.BLOCK_COPY? || op.SEX8? || op.SEX16? || op.NEGI?
    requires x < Pow256(OperandWidth(op))
    ensures OpcodeOf(Make(op, x)) == op && Operand(Make(op, x)) == x
  {
    Pow256Widths();
    match op {
      case BLOCK_COPY => case SEX8 => case SEX16 => case NEGI =>
      case _ =>
    }
  }

  lemma PartsOfMakeIn6(op: O.Opcode, x: nat)
    requires op.ADD? || op.SUB?
    requires x < Pow256(OperandWidth(op))
    ensures OpcodeOf(Make(op, x)) == op && Operand(Make(op, x)) == x
  {
    Pow256Widths();
    match op {
      case ADD => case SUB =>
      case _ =>
    }
  }

  lemma PartsOfMakeIn7(op: O.Opcode, x: nat)
    requires op.DIVI? || op.DIVU?
    requires x < Pow256(OperandWidth(op))
    ensures OpcodeOf(Make(op, x)) == op && Operand(Make(op, x)) == x
  {
    Pow256Widths();
    match op {
      case DIVI => case DIVU =>
      case _ =>
    }
  }

  lemma PartsOfMakeIn8(op: O.Opcode, x: nat)
    requires op.MODI? || op.MODU?
    requires x < Pow256(OperandWidth(op))
    ensures OpcodeOf(Make(op, x)) == op && Operand(Make(op, x)) == x
  {
    Pow256Widths();
    match op {
      case MODI => case MODU =>
      case _ =>
    }
  }

  lemma PartsOfMakeIn9(op: O.Opcode, x: nat)
    requires op.MULI? || op.MULU?
    requires x < Pow256(OperandWidth(op))
    ensures OpcodeOf(Make(op, x)) == op && Operand(Make(op, x)) == x
  {
    Pow256Widths();
    match op {
      case MULI => case MULU =>
      case _ =>
    }
  }

  lemma PartsOfMakeIn10(op: O.Opcode, x: nat)
    requires op.BAND? || op.BOR?
    requires x < Pow256(OperandWidth(op))
    ensures OpcodeOf(Make(op, x)) == op && Operand(Make(op, x)) == x
  {
    Pow256Widths();
    match op {
      case BAND => case BOR =>
      case _ =>
    }
  }

  lemma PartsOfMakeIn11(op: O.Opcode, x: nat)
    requires op.BXOR? || op.BCOM?
    requires x < Pow256(OperandWidth(op))
    ensures OpcodeOf(Make(op, x)) == op && Operand(Make(op, x)) == x
  {
    Pow256Widths();
    match op {
      case BXOR => case BCOM =>
      case _ =>
    }
  }

  lemma PartsOfMakeIn12(op: O.Opcode, x: nat)
    requires op.LSH? || op.RSHI?
    requires x < Pow256(OperandWidth(op))
    ensures OpcodeOf(Make(op, x)) == op && Operand(Make(op, x)) == x
  {
    Pow256Widths();
    match op {
      case LSH => case RSHI =>
      case _ =>
    }
  }

  lemma PartsOfMakeIn13(op: O.Opcode, x: nat)
    requires op.RSHU? || op.NEGF?
    requires x < Pow256(OperandWidth(op))
    ensures OpcodeOf(Make(op, x)) == op && Operand(Make(op, x)) == x
  {
    Pow256Widths();
    match op {
      case RSHU => case NEGF =>
      case _ =>
    }
  }

  lemma PartsOfMakeIn14(op: O.Opcode, x: nat)
    requires op.ADDF?
    requires x < Pow256(OperandWidth(op))
    ensures OpcodeOf(Make(op, x)) == op && Operand(Make(op, x)) == x
  {
    Pow256Widths();
    match op {
      case ADDF =>
      case _ =>
    }
  }

  lemma PartsOfMakeIn15(op: O.Opcode, x: nat)
    requires op.SUBF?
    requires x < Pow256(OperandWidth(op))
    ensures OpcodeOf(Make(op, x)) == op && Operand(Make(op, x)) == x
  {
    Pow256Widths();
    match op {
      case SUBF =>
      case _ =>
    }
  }

  lemma PartsOfMakeIn16(op: O.Opcode, x: nat)
    requires op.DIVF?
    requires x < Pow256(OperandWidth(op))
    ensures OpcodeOf(Make(op, x)) == op && Operand(Make(op, x)) == x
  {
    Pow256Widths();
    match op {
      case DIVF =>
      case _ =>
    }
  }

  lemma PartsOfMakeIn17(op: O.Opcode, x: nat)
    requires op.MULF?
    requires x < Pow256(OperandWidth(op))
    ensures OpcodeOf(Make(op, x)) == op && Operand(Make(op, x)) == x
  {
    Pow256Widths();
    match op {
      case MULF =>
      case _ =>
    }
  }

  lemma PartsOfMakeIn18(op: O.Opcode, x: nat)
    requires op.CVIF?
    requires x < Pow256(OperandWidth(op))
    ensures OpcodeOf(Make(op, x)) == op && Operand(Make(op, x)) == x
  {
    Pow256Widths();
    match op {
      case CVIF =>
      case _ =>
    }
  }

  lemma PartsOfMakeIn19(op: O.Opcode, x: nat)
    requires op.CVFI?
    requires x < Pow256(OperandWidth(op))
    ensures OpcodeOf(Make(op, x)) == op && Operand(Make(op, x)) == x
  {
    Pow256Widths();
    match op {
      case CVFI =>
      case _ =>
    }
  }

  /** The instruction built from an opcode and an operand has that opcode and carries that operand. */
  lemma PartsOfMake(op: O.Opcode, x: nat)
    requires x < Pow256(OperandWidth(op))
    ensures OpcodeOf(Make(op, x)) == op && Operand(Make(op, x)) == x
  {
    if op.UNDEF? || op.IGNORE? || op.BREAK? || op.ENTER? || op.LEAVE? || op.CALL? || op.PUSH?
      || op.POP? || op.CONST? || op.LOCAL? {
      PartsOfMakeIn0(op, x);
    } else if op.JUMP? || op.EQ? || op.NE? || op.LTI? || op.LEI? || op.GTI? || op.GEI? || op.LTU? {
      PartsOfMakeIn1(op, x);
    } else if op.LEU? || op.GTU? || op.GEU? || op.EQF? || op.NEF? || op.LTF? || op.LEF? {
      PartsOfMakeIn2(op, x);
    } else if op.GTF? || op.GEF? || op.LOAD1? || op.LOAD2? || op.LOAD4? {
      PartsOfMakeIn3(op, x);
    } else if op.STORE1? || op.STORE2? || op.STORE4? || op.ARG? {
      PartsOfMakeIn4(op, x);
    } else if op.BLOCK_COPY? || op.SEX8? || op.SEX16? || op.NEGI? {
      PartsOfMakeIn5(op, x);
    } else if op.ADD? || op.SUB? {
      PartsOfMakeIn6(op, x);
    } else if op.DIVI? || op.DIVU? {
      PartsOfMakeIn7(op, x);
    } else if op.MODI? || op.MODU? {
      PartsOfMakeIn8(op, x);
    } else if op.MULI? || op.MULU? {
      PartsOfMakeIn9(op, x);
    } else if op.BAND? || op.BOR? {
      PartsOfMakeIn10(op, x);
    } else if op.BXOR? || op.BCOM? {
      PartsOfMakeIn11(op, x);
    } else if op.LSH? || op.RSHI? {
      PartsOfMakeIn12(op, x);
    } else if op.RSHU? || op.NEGF? {
      PartsOfMakeIn13(op, x);
    } else if op.ADDF? {
      PartsOfMakeIn14(op, x);
    } else if op.SUBF? {
      PartsOfMakeIn15(op, x);
    } else if op.DIVF? {
      PartsOfMakeIn16(op, x);
    } else if op.MULF? {
      PartsOfMakeIn17(op, x);
    } else if op.CVIF? {
      PartsOfMakeIn18(op, x);
    } else {
      PartsOfMakeIn19(op, x);
    }
  }

  // MakeOfParts is proved over slices of the declaration, one lemma per
  // slice and a dispatcher that picks the slice, so that each proof stays small.

  lemma MakeOfPartsIn0(i: Instruction)
    requires i.UNDEF? || i.IGNORE? || i.BREAK? || i.ENTER? || i.LEAVE? || i.CALL? || i.PUSH?
      || i.POP? || i.CONST? || i.LOCAL?
    ensures Make(OpcodeOf(i), Operand(i)) == i
  {
    Pow256Widths();
    match i {
      case UNDEF => case IGNORE => case BREAK => case ENTER(_) => case LEAVE(_) => case CALL =>
      case PUSH => case POP => case CONST(_) => case LOCAL(_) =>
      case _ =>
    }
  }

  lemma MakeOfPartsIn1(i: Instruction)
    requires i.JUMP? || i.EQ? || i.NE? || i.LTI? || i.LEI? || i.GTI? || i.GEI? || i.LTU?
    ensures Make(OpcodeOf(i), Operand(i)) == i
  {
    Pow256Widths();
    match i {
      case JUMP => case EQ(_) => case NE(_) => case LTI(_) => case LEI(_) => case GTI(_) =>
      case GEI(_) => case LTU(_) =>
      case _ =>
    }
  }

  lemma MakeOfPartsIn2(i: Instruction)
    requires i.LEU? || i.GTU? || i.GEU? || i.EQF? || i.NEF? || i.LTF? || i.LEF?
    ensures Make(OpcodeOf(i), Operand(i)) == i
  {
    Pow256Widths();
    match i {
      case LEU(_) => case GTU(_) => case GEU(_) => case EQF(_) => case NEF(_) => case LTF(_) =>
      case LEF(_) =>
      case _ =>
    }
  }

  lemma MakeOfPartsIn3(i: Instruction)
    requires i.GTF? || i.GEF? || i.LOAD1? || i.LOAD2? || i.LOAD4?
    ensures Make(OpcodeOf(i), Operand(i)) == i
  {
    Pow256Widths();
    match i {
      case GTF(_) => case GEF(_) => case LOAD1 => case LOAD2 => case LOAD4 =>
      case _ =>
    }
  }

  lemma MakeOfPartsIn4(i: Instruction)
    requires i.STORE1? || i.STORE2? || i.STORE4? || i.ARG?
    ensures Make(OpcodeOf(i), Operand(i)) == i
  {
    Pow256Widths();
    match i {
      case STORE1 => case STORE2 => case STORE4 => case ARG(_) =>
      case _ =>
    }
  }

  lemma MakeOfPartsIn5(i: Instruction)
    requires i.BLOCK_COPY? || i.SEX8? || i.SEX16? || i.NEGI?
    ensures Make(OpcodeOf(i), Operand(i)) == i
  {
    Pow256Widths();
    match i {
      case BLOCK_COPY(_) => case SEX8 => case SEX16 => case NEGI =>
      case _ =>
    }
  }

  lemma MakeOfPartsIn6(i: Instruction)
    requires i.ADD? || i.SUB?
    ensures Make(OpcodeOf(i), Operand(i)) == i
  {
    Pow256Widths();
    match i {
      case ADD => case SUB =>
      case _ =>
    }
  }

  lemma MakeOfPartsIn7(i: Instruction)
    requires i.DIVI? || i.DIVU?
    ensures Make(OpcodeOf(i), Operand(i)) == i
  {
    Pow256Widths();
    match i {
      case DIVI => case DIVU =>
      case _ =>
    }
  }

  lemma MakeOfPartsIn8(i: Instruction)
    requires i.MODI? || i.MODU?
    ensures Make(OpcodeOf(i), Operand(i)) == i
  {
    Pow256Widths();
    match i {
      case MODI => case MODU =>
      case _ =>
    }
  }

  lemma MakeOfPartsIn9(i: Instruction)
    requires i.MULI? || i.MULU?
    ensures Make(OpcodeOf(i), Operand(i)) == i
  {
    Pow256Widths();
    match i {
      case MULI => case MULU =>
      case _ =>
    }
  }

  lemma MakeOfPartsIn10(i: Instruction)
    requires i.BAND? || i.BOR?
    ensures Make(OpcodeOf(i), Operand(i)) == i
  {
    Pow256Widths();
    match i {
      case BAND => case BOR =>
      case _ =>
    }
  }

  lemma MakeOfPartsIn11(i: Instruction)
    requires i.BXOR? || i.BCOM?
    ensures Make(OpcodeOf(i), Operand(i)) == i
  {
    Pow256Widths();
    match i {
      case BXOR => case BCOM =>
      case _ =>
    }
  }

  lemma MakeOfPartsIn12(i: Instruction)
    requires i.LSH? || i.RSHI?
    ensures Make(OpcodeOf(i), Operand(i)) == i
  {
    Pow256Widths();
    match i {
      case LSH => case RSHI =>
      case _ =>
    }
  }

  lemma MakeOfPartsIn13(i: Instruction)
    requires i.RSHU? || i.NEGF?
    ensures Make(OpcodeOf(i), Operand(i)) == i
  {
    Pow256Widths();
    match i {
      case RSHU => case NEGF =>
      case _ =>
    }
  }

  lemma MakeOfPartsIn14(i: Instruction)
    requires i.ADDF?
    ensures Make(OpcodeOf(i), Operand(i)) == i
  {
    Pow256Widths();
    match i {
      case ADDF =>
      case _ =>
    }
  }

  lemma MakeOfPartsIn15(i: Instruction)
    requires i.SUBF?
    ensures Make(OpcodeOf(i), Operand(i)) == i
  {
    Pow256Widths();
    match i {
      case SUBF =>
      case _ =>
    }
  }

  lemma MakeOfPartsIn16(i: Instruction)
    requires i.DIVF?
    ensures Make(OpcodeOf(i), Operand(i)) == i
  {
    Pow256Widths();
    match i {
      case DIVF =>
      case _ =>
    }
  }

  lemma MakeOfPartsIn17(i: Instruction)
    requires i.MULF?
    ensures Make(OpcodeOf(i), Operand(i)) == i
  {
    Pow256Widths();
    match i {
      case MULF =>
      case _ =>
    }
  }

  lemma MakeOfPartsIn18(i: Instruction)
    requires i.CVIF?
    ensures Make(OpcodeOf(i), Operand(i)) == i
  {
    Pow256Widths();
    match i {
      case CVIF =>
      case _ =>
    }
  }

  lemma MakeOfPartsIn19(i: Instruction)
    requires i.CVFI?
    ensures Make(OpcodeOf(i), Operand(i)) == i
  {
    Pow256Widths();
    match i {
      case CVFI =>
      case _ =>
    }
  }

  /** An instruction is rebuilt from its opcode and its operand. */
  lemma MakeOfParts(i: Instruction)
    ensures Make(OpcodeOf(i), Operand(i)) == i
  {
    if i.UNDEF? || i.IGNORE? || i.BREAK? || i.ENTER? || i.LEAVE? || i.CALL? || i.PUSH? || i.POP?
      || i.CONST? || i.LOCAL? {
      MakeOfPartsIn0(i);
    } else if i.JUMP? || i.EQ? || i.NE? || i.LTI? || i.LEI? || i.GTI? || i.GEI? || i.LTU? {
      MakeOfPartsIn1(i);
    } else if i.LEU? || i.GTU? || i.GEU? || i.EQF? || i.NEF? || i.LTF? || i.LEF? {
      MakeOfPartsIn2(i);
    } else if i.GTF? || i.GEF? || i.LOAD1? || i.LOAD2? || i.LOAD4? {
      MakeOfPartsIn3(i);
    } else if i.STORE1? || i.STORE2? || i.STORE4? || i.ARG? {
      MakeOfPartsIn4(i);
    } else if i.BLOCK_COPY? || i.SEX8? || i.SEX16? || i.NEGI? {
      MakeOfPartsIn5(i);
    } else if i.ADD? || i.SUB? {
      MakeOfPartsIn6(i);
    } else if i.DIVI? || i.DIVU? {
      MakeOfPartsIn7(i);
    } else if i.MODI? || i.MODU? {
      MakeOfPartsIn8(i);
    } else if i.MULI? || i.MULU? {
      MakeOfPartsIn9(i);
    } else if i.BAND? || i.BOR? {
      MakeOfPartsIn10(i);
    } else if i.BXOR? || i.BCOM? {
      MakeOfPartsIn11(i);
    } else if i.LSH? || i.RSHI? {
      MakeOfPartsIn12(i);
    } else if i.RSHU? || i.NEGF? {
      MakeOfPartsIn13(i);
    } else if i.ADDF? {
      MakeOfPartsIn14(i);
    } else if i.SUBF? {
      MakeOfPartsIn15(i);
    } else if i.DIVF? {
      MakeOfPartsIn16(i);
    } else if i.MULF? {
      MakeOfPartsIn17(i);
    } else if i.CVIF? {
      MakeOfPartsIn18(i);
    } else {
      MakeOfPartsIn19(i);
    }
  }

  /**
   * Equality of instructions is structural: two instructions are equal
   * exactly when they have the same opcode and the same operand.
   */
  lemma StructuralEquality(i: Instruction, j: Instruction)
    ensures i == j <==> OpcodeOf(i) == OpcodeOf(j) && Operand(i) == Operand(j)
  {
    MakeOfParts(i);
    MakeOfParts(j);
  }
}
