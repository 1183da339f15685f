/**
 * The decoder's unit tests, stated as lemmas. The two tests that read the
 * bundled `mod.qvm` asset are stated for any input: the expected result is
 * produced exactly by the bytes written out here.
 */
module ParserTests {
  import opened LittleEndian
  import O = Opcodes
  import opened Bytecode
  import opened Parser

  /** `op_break` on its own byte yields `BREAK` and consumes it. */
  lemma BreakExactMatch()
    ensures OpParse(O.BREAK, [0x2]) == Done([], BREAK)
  {
  }

  /** `op_break` on the byte of `UNDEF` fails with a tag error. */
  lemma BreakTagMismatch()
    ensures OpParse(O.BREAK, [0x0]) == Error(Tag)
  {
  }

  /** `op_enter` reads its frame size little-endian. */
  lemma EnterExactMatch()
    ensures OpParse(O.ENTER, [0x3, 0x42, 0x0, 0x0, 0x0]) == Done([], ENTER(0x42))
  {
  }

  /** `op_arg` reads its one-byte operand. */
  lemma ArgExactMatch()
    ensures OpParse(O.ARG, [0x21, 0x42]) == Done([], ARG(0x42))
  {
  }

  /** `ins` picks `op_enter` for the byte 3. */
  lemma InsEnterExactMatch()
    ensures Ins([0x3, 0x42, 0x0, 0x0, 0x0]) == Done([], ENTER(0x42))
  {
    InsOnOpcode(O.ENTER, [0x3, 0x42, 0x0, 0x0, 0x0]);
    EnterExactMatch();
  }

  /** The header of the `mod.qvm` asset. */
  const ModHeader: Header := Header(
    instructionCount := 5,
    codeLength := 24,
    codeOffset := 0x20,
    dataLength := 4,
    dataOffset := 0x38,
    litLength := 0,
    bssLength := 65536)

  /** The 32 header bytes that produce `ModHeader`. */
  const ModHeaderBytes: seq<Byte> :=
    VM_MAGIC + [5, 0, 0, 0] + [0x20, 0, 0, 0] + [24, 0, 0, 0] + [0x38, 0, 0, 0]
    + [4, 0, 0, 0] + [0, 0, 0, 0] + [0, 0, 1, 0]

  /** These bytes are the written form of the asset's header. */
  lemma ModHeaderEncoding()
    ensures EncodeHeader(ModHeader) == ModHeaderBytes
  {
    assert I32Bytes(5) == [5, 0, 0, 0];
    assert I32Bytes(0x20) == [0x20, 0, 0, 0];
    assert I32Bytes(24) == [24, 0, 0, 0];
    assert I32Bytes(0x38) == [0x38, 0, 0, 0];
    assert I32Bytes(4) == [4, 0, 0, 0];
    assert I32Bytes(0) == [0, 0, 0, 0];
    assert I32Bytes(65536) == [0, 0, 1, 0];
  }

  /** `header` yields the asset's header exactly on these 32 bytes. */
  lemma HeaderFile(input: seq<Byte>)
    ensures ParseHeader(input) == Done([], ModHeader) <==> input == ModHeaderBytes
  {
    ModHeaderEncoding();
    HeaderRoundTrip(ModHeader, []);
    assert ModHeaderBytes + [] == ModHeaderBytes;
    if ParseHeader(input) == Done([], ModHeader) {
      HeaderSound(input);
    }
  }

  /** The first five instructions of the asset; `-1` is read as the unsigned literal. */
  const ModCode: seq<Instruction> :=
    [ENTER(8), CONST(4294967295), LEAVE(8), PUSH, LEAVE(8)]

  /** The 21 code bytes that produce `ModCode`. */
  const ModCodeBytes: seq<Byte> :=
    [0x3, 8, 0, 0, 0] + ([0x8, 0xFF, 0xFF, 0xFF, 0xFF] + ([0x4, 8, 0, 0, 0] + ([0x6]
    + ([0x4, 8, 0, 0, 0] + []))))

  /** The written form of each instruction of `ModCode`. */
  lemma EnterEncoding()
    ensures Encode(ENTER(8)) == [0x3, 8, 0, 0, 0]
  {
  }

  lemma ConstEncoding()
    ensures Encode(CONST(4294967295)) == [0x8, 0xFF, 0xFF, 0xFF, 0xFF]
  {
  }

  lemma LeaveEncoding()
    ensures Encode(LEAVE(8)) == [0x4, 8, 0, 0, 0]
  {
  }

  lemma PushEncoding()
    ensures Encode(PUSH) == [0x6]
  {
  }

  /** These bytes are the written form of the asset's code. */
  lemma ModCodeEncoding()
    ensures EncodeAll(ModCode) == ModCodeBytes
  {
    EnterEncoding();
    ConstEncoding();
    LeaveEncoding();
    PushEncoding();
    var tail := ModCode[1..][1..][1..][1..];
    assert tail == [LEAVE(8)] && tail[1..] == [];
    assert EncodeAll(tail) == [0x4, 8, 0, 0, 0] + [];
  }

  /** `count!(ins, 5)` yields the asset's code exactly on these 21 bytes. */
  lemma InsFile(input: seq<Byte>)
    ensures DecodeN(input, 5) == Done([], ModCode) <==> input == ModCodeBytes
  {
    ModCodeEncoding();
    DecodeNRoundTrip(ModCode, []);
    assert ModCodeBytes + [] == ModCodeBytes;
    if DecodeN(input, 5) == Done([], ModCode) {
      DecodeNSound(input, 5);
    }
  }
}
