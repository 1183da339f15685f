/** The QVM operation codes and their one-byte encoding. */
module Opcodes {
  import opened LittleEndian

  datatype Option<+T> = None | Some(value: T)

  /**
   * Operation code of a QVM instruction, named as in ioquake3's `opcode_t`.
   * The declaration order is the numbering: the on-disk byte of an opcode is
   * its position in this list.
   */
  datatype Opcode =
      UNDEF
    | IGNORE
    | BREAK
    | ENTER | LEAVE | CALL | PUSH | POP
    | CONST | LOCAL
    | JUMP
    | EQ | NE
    | LTI | LEI | GTI | GEI
    | LTU | LEU | GTU | GEU
    | EQF | NEF
    | LTF | LEF | GTF | GEF
    | LOAD1 | LOAD2 | LOAD4 | STORE1 | STORE2 | STORE4 | ARG
    | BLOCK_COPY
    | SEX8 | SEX16
    | NEGI | ADD | SUB | DIVI | DIVU | MODI | MODU | MULI | MULU
    | BAND | BOR | BXOR | BCOM
    | LSH | RSHI | RSHU
    | NEGF | ADDF | SUBF | DIVF | MULF
    | CVIF | CVFI

  /** Number of opcodes; every byte at or above it is not an opcode. */
  const OpcodeCount: nat := 60

  /** The opcodes in declaration order. */
  const Declared: seq<Opcode> :=
      [UNDEF]
    + ([IGNORE]
    + ([BREAK]
    + ([ENTER, LEAVE, CALL, PUSH, POP]
    + ([CONST, LOCAL]
    + ([JUMP]
    + ([EQ, NE]
    + ([LTI, LEI, GTI, GEI]
    + ([LTU, LEU, GTU, GEU]
    + ([EQF, NEF]
    + ([LTF, LEF, GTF, GEF]
    + ([LOAD1, LOAD2, LOAD4, STORE1, STORE2, STORE4, ARG]
    + ([BLOCK_COPY]
    + ([SEX8, SEX16]
    + ([NEGI, ADD, SUB, DIVI, DIVU, MODI, MODU, MULI, MULU]
    + ([BAND, BOR, BXOR, BCOM]
    + ([LSH, RSHI, RSHU]
    + ([NEGF, ADDF, SUBF, DIVF, MULF]
    + ([CVIF, CVFI]))))))))))))))))))

  /** The on-disk byte of an opcode (the enum's implicit discriminant, cast to `u8`). */
  function OpByte(op: Opcode): (b: Byte)
    ensures b < OpcodeCount
  {
    match op
    case UNDEF => 0
    case IGNORE => 1
    case BREAK => 2
    case ENTER => 3
    case LEAVE => 4
    case CALL => 5
    case PUSH => 6
    case POP => 7
    case CONST => 8
    case LOCAL => 9
    case JUMP => 10
    case EQ => 11
    case NE => 12
    case LTI => 13
    case LEI => 14
    case GTI => 15
    case GEI => 16
    case LTU => 17
    case LEU => 18
    case GTU => 19
    case GEU => 20
    case EQF => 21
    case NEF => 22
    case LTF => 23
    case LEF => 24
    case GTF => 25
    case GEF => 26
    case LOAD1 => 27
    case LOAD2 => 28
    case LOAD4 => 29
    case STORE1 => 30
    case STORE2 => 31
    case STORE4 => 32
    case ARG => 33
    case BLOCK_COPY => 34
    case SEX8 => 35
    case SEX16 => 36
    case NEGI => 37
    case ADD => 38
    case SUB => 39
    case DIVI => 40
    case DIVU => 41
    case MODI => 42
    case MODU => 43
    case MULI => 44
    case MULU => 45
    case BAND => 46
    case BOR => 47
    case BXOR => 48
    case BCOM => 49
    case LSH => 50
    case RSHI => 51
    case RSHU => 52
    case NEGF => 53
    case ADDF => 54
    case SUBF => 55
    case DIVF => 56
    case MULF => 57
    case CVIF => 58
    case CVFI => 59
  }

  /** The opcode a byte stands for, if any: the one declared at that position. */
  function FromByte(b: Byte): (r: Option<Opcode>)
    ensures r.Some? <==> b < OpcodeCount
  {
    if b < |Declared| then Some(Declared[b]) else None
  }

  /** Distinct opcodes have distinct bytes: no discriminant is reused. */
  lemma OpByteInjective(a: Opcode, b: Opcode)
    ensures OpByte(a) == OpByte(b) <==> a == b
  {
    if OpByte(a) == OpByte(b) {
      FromByteOfOpByte(a);
      FromByteOfOpByte(b);
    }
  }

  /** Reading back an opcode's byte gives the opcode. */
  lemma FromByteOfOpByte(op: Opcode)
    ensures FromByte(OpByte(op)) == Some(op)
  {
    DeclaredPosition(op);
  }

  // OpByteOfFromByte is proved over slices of the declaration, one lemma per
  // slice and a dispatcher that picks the slice, so that each proof stays small.

  lemma OpByteOfFromByteIn0(b: Byte)
    requires 0 <= b < 10
    ensures OpByte(FromByte(b).value) == b
  {
    if b == 0 {
    } else if b == 1 {
    } else if b == 2 {
    } else if b == 3 {
    } else if b == 4 {
    } else if b == 5 {
    } else if b == 6 {
    } else if b == 7 {
    } else if b == 8 {
    } else {
    }
  }

  lemma OpByteOfFromByteIn1(b: Byte)
    requires 10 <= b < 18
    ensures OpByte(FromByte(b).value) == b
  {
    if b == 10 {
    } else if b == 11 {
    } else if b == 12 {
    } else if b == 13 {
    } else if b == 14 {
    } else if b == 15 {
    } else if b == 16 {
    } else {
    }
  }

  lemma OpByteOfFromByteIn2(b: Byte)
    requires 18 <= b < 25
    ensures OpByte(FromByte(b).value) == b
  {
    if b == 18 {
    } else if b == 19 {
    } else if b == 20 {
    } else if b == 21 {
    } else if b == 22 {
    } else if b == 23 {
    } else {
    }
  }

  lemma OpByteOfFromByteIn3(b: Byte)
    requires 25 <= b < 30
    ensures OpByte(FromByte(b).value) == b
  {
    if b == 25 {
    } else if b == 26 {
    } else if b == 27 {
    } else if b == 28 {
    } else {
    }
  }

  lemma OpByteOfFromByteIn4(b: Byte)
    requires 30 <= b < 34
    ensures OpByte(FromByte(b).value) == b
  {
    if b == 30 {
    } else if b == 31 {
    } else if b == 32 {
    } else {
    }
  }

  lemma OpByteOfFromByteIn5(b: Byte)
    requires 34 <= b < 38
    ensures OpByte(FromByte(b).value) == b
  {
    if b == 34 {
    } else if b == 35 {
    } else if b == 36 {
    } else {
    }
  }

  lemma OpByteOfFromByteIn6(b: Byte)
    requires 38 <= b < 40
    ensures OpByte(FromByte(b).value) == b
  {
    if b == 38 {
    } else {
    }
  }

  lemma OpByteOfFromByteIn7(b: Byte)
    requires 40 <= b < 42
    ensures OpByte(FromByte(b).value) == b
  {
    if b == 40 {
    } else {
    }
  }

  lemma OpByteOfFromByteIn8(b: Byte)
    requires 42 <= b < 44
    ensures OpByte(FromByte(b).value) == b
  {
    if b == 42 {
    } else {
    }
  }

  lemma OpByteOfFromByteIn9(b: Byte)
    requires 44 <= b < 46
    ensures OpByte(FromByte(b).value) == b
  {
    if b == 44 {
    } else {
    }
  }

  lemma OpByteOfFromByteIn10(b: Byte)
    requires 46 <= b < 48
    ensures OpByte(FromByte(b).value) == b
  {
    if b == 46 {
    } else {
    }
  }

  lemma OpByteOfFromByteIn11(b: Byte)
    requires 48 <= b < 50
    ensures OpByte(FromByte(b).value) == b
  {
    if b == 48 {
    } else {
    }
  }

  lemma OpByteOfFromByteIn12(b: Byte)
    requires 50 <= b < 52
    ensures OpByte(FromByte(b).value) == b
  {
    if b == 50 {
    } else {
    }
  }

  lemma OpByteOfFromByteIn13(b: Byte)
    requires 52 <= b < 54
    ensures OpByte(FromByte(b).value) == b
  {
    if b == 52 {
    } else {
    }
  }

  lemma OpByteOfFromByteIn14(b: Byte)
    requires 54 <= b < 55
    ensures OpByte(FromByte(b).value) == b
  {
  }

  lemma OpByteOfFromByteIn15(b: Byte)
    requires 55 <= b < 56
    ensures OpByte(FromByte(b).value) == b
  {
  }

  lemma OpByteOfFromByteIn16(b: Byte)
    requires 56 <= b < 57
    ensures OpByte(FromByte(b).value) == b
  {
  }

  lemma OpByteOfFromByteIn17(b: Byte)
    requires 57 <= b < 58
    ensures OpByte(FromByte(b).value) == b
  {
  }

  lemma OpByteOfFromByteIn18(b: Byte)
    requires 58 <= b < 59
    ensures OpByte(FromByte(b).value) == b
  {
  }

  lemma OpByteOfFromByteIn19(b: Byte)
    requires 59 <= b < 60
    ensures OpByte(FromByte(b).value) == b
  {
  }

  /** Every byte below the opcode count is the byte of the opcode it stands for. */
  lemma OpByteOfFromByte(b: Byte)
    requires b < OpcodeCount
    ensures OpByte(FromByte(b).value) == b
  {
    if b < 10 {
      OpByteOfFromByteIn0(b);
    } else if b < 18 {
      OpByteOfFromByteIn1(b);
    } else if b < 25 {
      OpByteOfFromByteIn2(b);
    } else if b < 30 {
      OpByteOfFromByteIn3(b);
    } else if b < 34 {
      OpByteOfFromByteIn4(b);
    } else if b < 38 {
      OpByteOfFromByteIn5(b);
    } else if b < 40 {
      OpByteOfFromByteIn6(b);
    } else if b < 42 {
      OpByteOfFromByteIn7(b);
    } else if b < 44 {
      OpByteOfFromByteIn8(b);
    } else if b < 46 {
      OpByteOfFromByteIn9(b);
    } else if b < 48 {
      OpByteOfFromByteIn10(b);
    } else if b < 50 {
      OpByteOfFromByteIn11(b);
    } else if b < 52 {
      OpByteOfFromByteIn12(b);
    } else if b < 54 {
      OpByteOfFromByteIn13(b);
    } else if b < 55 {
      OpByteOfFromByteIn14(b);
    } else if b < 56 {
      OpByteOfFromByteIn15(b);
    } else if b < 57 {
      OpByteOfFromByteIn16(b);
    } else if b < 58 {
      OpByteOfFromByteIn17(b);
    } else if b < 59 {
      OpByteOfFromByteIn18(b);
    } else {
      OpByteOfFromByteIn19(b);
    }
  }

  /** The bytes the decoder's tests rely on. */
  lemma FixedBytes()
    ensures OpByte(UNDEF) == 0 && OpByte(BREAK) == 2 && OpByte(ENTER) == 3
    ensures OpByte(ARG) == 0x21 && OpByte(CVFI) == OpcodeCount - 1
  {
  }

  /**
   * The conditional branches: equality, signed, unsigned and float
   * comparisons, each carrying a branch target address.
   */
  predicate IsComparison(op: Opcode)
  {
    match op
    case EQ | NE | LTI | LEI | GTI | GEI | LTU | LEU | GTU | GEU
      | EQF | NEF | LTF | LEF | GTF | GEF => true
    case _ => false
  }

  /** The comparison family occupies exactly the contiguous byte range 11..26. */
  lemma ComparisonRange(op: Opcode)
    ensures IsComparison(op) <==> 11 <= OpByte(op) <= 26
  {
    match op {
      case UNDEF => case IGNORE => case BREAK => case ENTER => case LEAVE => case CALL =>
      case PUSH => case POP => case CONST => case LOCAL => case JUMP => case EQ =>
      case NE => case LTI => case LEI => case GTI => case GEI => case LTU =>
      case LEU => case GTU => case GEU => case EQF => case NEF => case LTF =>
      case LEF => case GTF => case GEF => case LOAD1 => case LOAD2 => case LOAD4 =>
      case STORE1 => case STORE2 => case STORE4 => case ARG => case BLOCK_COPY => case SEX8 =>
      case SEX16 => case NEGI => case ADD => case SUB => case DIVI => case DIVU =>
      case MODI => case MODU => case MULI => case MULU => case BAND => case BOR =>
      case BXOR => case BCOM => case LSH => case RSHI => case RSHU => case NEGF =>
      case ADDF => case SUBF => case DIVF => case MULF => case CVIF => case CVFI =>
    }
  }

  // DeclaredPosition is proved over slices of the declaration, one lemma per
  // slice and a dispatcher that picks the slice, so that each proof stays small.

  lemma DeclaredPositionIn0(op: Opcode)
    requires op.UNDEF? || op.IGNORE? || op.BREAK? || op.ENTER? || op.LEAVE? || op.CALL? || op.PUSH?
      || op.POP? || op.CONST? || op.LOCAL?
    ensures |Declared| == OpcodeCount && Declared[OpByte(op)] == op
  {
    match op {
      case UNDEF => case IGNORE => case BREAK => case ENTER => case LEAVE => case CALL =>
      case PUSH => case POP => case CONST => case LOCAL =>
      case _ =>
    }
  }

  lemma DeclaredPositionIn1(op: Opcode)
    requires op.JUMP? || op.EQ? || op.NE? || op.LTI? || op.LEI? || op.GTI? || op.GEI? || op.LTU?
    ensures |Declared| == OpcodeCount && Declared[OpByte(op)] == op
  {
    match op {
      case JUMP => case EQ => case NE => case LTI => case LEI => case GTI => case GEI => case LTU =>
      case _ =>
    }
  }

  lemma DeclaredPositionIn2(op: Opcode)
    requires op.LEU? || op.GTU? || op.GEU? || op.EQF? || op.NEF? || op.LTF? || op.LEF?
    ensures |Declared| == OpcodeCount && Declared[OpByte(op)] == op
  {
    match op {
      case LEU => case GTU => case GEU => case EQF => case NEF => case LTF => case LEF =>
      case _ =>
    }
  }

  lemma DeclaredPositionIn3(op: Opcode)
    requires op.GTF? || op.GEF? || op.LOAD1? || op.LOAD2? || op.LOAD4?
    ensures |Declared| == OpcodeCount && Declared[OpByte(op)] == op
  {
    match op {
      case GTF => case GEF => case LOAD1 => case LOAD2 => case LOAD4 =>
      case _ =>
    }
  }

  lemma DeclaredPositionIn4(op: Opcode)
    requires op.STORE1? || op.STORE2? || op.STORE4? || op.ARG?
    ensures |Declared| == OpcodeCount && Declared[OpByte(op)] == op
  {
    match op {
      case STORE1 => case STORE2 => case STORE4 => case ARG =>
      case _ =>
    }
  }

  lemma DeclaredPositionIn5(op: Opcode)
    requires op.BLOCK_COPY? || op.SEX8? || op.SEX16? || op.NEGI?
    ensures |Declared| == OpcodeCount && Declared[OpByte(op)] == op
  {
    match op {
      case BLOCK_COPY => case SEX8 => case SEX16 => case NEGI =>
      case _ =>
    }
  }

  lemma DeclaredPositionIn6(op: Opcode)
    requires op.ADD? || op.SUB?
    ensures |Declared| == OpcodeCount && Declared[OpByte(op)] == op
  {
    match op {
      case ADD => case SUB =>
      case _ =>
    }
  }

  lemma DeclaredPositionIn7(op: Opcode)
    requires op.DIVI? || op.DIVU?
    ensures |Declared| == OpcodeCount && Declared[OpByte(op)] == op
  {
    match op {
      case DIVI => case DIVU =>
      case _ =>
    }
  }

  lemma DeclaredPositionIn8(op: Opcode)
    requires op.MODI? || op.MODU?
    ensures |Declared| == OpcodeCount && Declared[OpByte(op)] == op
  {
    match op {
      case MODI => case MODU =>
      case _ =>
    }
  }

  lemma DeclaredPositionIn9(op: Opcode)
    requires op.MULI? || op.MULU?
    ensures |Declared| == OpcodeCount && Declared[OpByte(op)] == op
  {
    match op {
      case MULI => case MULU =>
      case _ =>
    }
  }

  lemma DeclaredPositionIn10(op: Opcode)
    requires op.BAND? || op.BOR?
    ensures |Declared| == OpcodeCount && Declared[OpByte(op)] == op
  {
    match op {
      case BAND => case BOR =>
      case _ =>
    }
  }

  lemma DeclaredPositionIn11(op: Opcode)
    requires op.BXOR? || op.BCOM?
    ensures |Declared| == OpcodeCount && Declared[OpByte(op)] == op
  {
    match op {
      case BXOR => case BCOM =>
      case _ =>
    }
  }

  lemma DeclaredPositionIn12(op: Opcode)
    requires op.LSH? || op.RSHI?
    ensures |Declared| == OpcodeCount && Declared[OpByte(op)] == op
  {
    match op {
      case LSH => case RSHI =>
      case _ =>
    }
  }

  lemma DeclaredPositionIn13(op: Opcode)
    requires op.RSHU? || op.NEGF?
    ensures |Declared| == OpcodeCount && Declared[OpByte(op)] == op
  {
    match op {
      case RSHU => case NEGF =>
      case _ =>
    }
  }

  lemma DeclaredPositionIn14(op: Opcode)
    requires op.ADDF?
    ensures |Declared| == OpcodeCount && Declared[OpByte(op)] == op
  {
    match op {
      case ADDF =>
      case _ =>
    }
  }

  lemma DeclaredPositionIn15(op: Opcode)
    requires op.SUBF?
    ensures |Declared| == OpcodeCount && Declared[OpByte(op)] == op
  {
    match op {
      case SUBF =>
      case _ =>
    }
  }

  lemma DeclaredPositionIn16(op: Opcode)
    requires op.DIVF?
    ensures |Declared| == OpcodeCount && Declared[OpByte(op)] == op
  {
    match op {
      case DIVF =>
      case _ =>
    }
  }

  lemma DeclaredPositionIn17(op: Opcode)
    requires op.MULF?
    ensures |Declared| == OpcodeCount && Declared[OpByte(op)] == op
  {
    match op {
      case MULF =>
      case _ =>
    }
  }

  lemma DeclaredPositionIn18(op: Opcode)
    requires op.CVIF?
    ensures |Declared| == OpcodeCount && Declared[OpByte(op)] == op
  {
    match op {
      case CVIF =>
      case _ =>
    }
  }

  lemma DeclaredPositionIn19(op: Opcode)
    requires op.CVFI?
    ensures |Declared| == OpcodeCount && Declared[OpByte(op)] == op
  {
    match op {
      case CVFI =>
      case _ =>
    }
  }

  /** Each opcode's byte is its position in the declaration. */
  lemma DeclaredPosition(op: Opcode)
    ensures |Declared| == OpcodeCount && Declared[OpByte(op)] == op
  {
    if op.UNDEF? || op.IGNORE? || op.BREAK? || op.ENTER? || op.LEAVE? || op.CALL? || op.PUSH?
      || op.POP? || op.CONST? || op.LOCAL? {
      DeclaredPositionIn0(op);
    } else if op.JUMP? || op.EQ? || op.NE? || op.LTI? || op.LEI? || op.GTI? || op.GEI? || op.LTU? {
      DeclaredPositionIn1(op);
    } else if op.LEU? || op.GTU? || op.GEU? || op.EQF? || op.NEF? || op.LTF? || op.LEF? {
      DeclaredPositionIn2(op);
    } else if op.GTF? || op.GEF? || op.LOAD1? || op.LOAD2? || op.LOAD4? {
      DeclaredPositionIn3(op);
    } else if op.STORE1? || op.STORE2? || op.STORE4? || op.ARG? {
      DeclaredPositionIn4(op);
    } else if op.BLOCK_COPY? || op.SEX8? || op.SEX16? || op.NEGI? {
      DeclaredPositionIn5(op);
    } else if op.ADD? || op.SUB? {
      DeclaredPositionIn6(op);
    } else if op.DIVI? || op.DIVU? {
      DeclaredPositionIn7(op);
    } else if op.MODI? || op.MODU? {
      DeclaredPositionIn8(op);
    } else if op.MULI? || op.MULU? {
      DeclaredPositionIn9(op);
    } else if op.BAND? || op.BOR? {
      DeclaredPositionIn10(op);
    } else if op.BXOR? || op.BCOM? {
      DeclaredPositionIn11(op);
    } else if op.LSH? || op.RSHI? {
      DeclaredPositionIn12(op);
    } else if op.RSHU? || op.NEGF? {
      DeclaredPositionIn13(op);
    } else if op.ADDF? {
      DeclaredPositionIn14(op);
    } else if op.SUBF? {
      DeclaredPositionIn15(op);
    } else if op.DIVF? {
      DeclaredPositionIn16(op);
    } else if op.MULF? {
      DeclaredPositionIn17(op);
    } else if op.CVIF? {
      DeclaredPositionIn18(op);
    } else {
      DeclaredPositionIn19(op);
    }
  }
}
