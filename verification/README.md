# QVM bytecode decoder

A Dafny model of the byte-level decoder for Quake III virtual-machine
(QVM) files. It covers three parts of the Rust crate:

- the opcode numbering (`enum Opcode`): 60 operation codes whose implicit
  discriminants, UNDEF = 0 up to CVFI = 59, are their on-disk bytes;
- the decoded instruction (`enum Instruction`): one variant per opcode,
  carrying no operand, a 32-bit operand or, for ARG only, an 8-bit one;
- the nom parsers: one tag-then-operand parser per opcode (the `op!`,
  `op_fn!`, `op_u32!` and `op_u8!` schemas and their sixty instances), the
  `alt!` dispatcher `ins`, the `count!(ins, n)` repetition used by the tests,
  and the `header` parser (a 4-byte magic number and seven little-endian
  `i32` fields).

Files:

- `little_endian.dfy` (module `LittleEndian`): bytes, 32-bit values, the
  little-endian reading of a run of bytes and its inverse, and the `u32`/`i32`
  reinterpretation.
- `opcodes.dfy` (module `Opcodes`): `Opcode`, its byte `OpByte` and the byte's
  inverse `FromByte`.
- `bytecode.dfy` (module `Bytecode`): the operand type aliases, `Instruction`,
  the opcode and operand of an instruction, and `Make`, which builds an
  instruction from the two.
- `parser.dfy` (module `Parser`): nom's result type, the primitive parsers
  (`tag!`, `le_u8`, `le_u32`, `le_i32`), the parser schemas, `OpParse` (the
  sixty per-opcode parsers), `Alt` and `Ins` (`alt!` and `ins`), `DecodeN`
  (`count!(ins, n)`), `ParseHeader` (`header`), and the encoders `Encode`,
  `EncodeAll` and `EncodeHeader`. The encoders exist only to state round trips.
- `parser_tests.dfy` (module `ParserTests`): the crate's unit tests, stated
  as lemmas.

Each parser is checked against an independent description:

- Every per-opcode parser is equal to `ExpectedParse`. It checks the opcode's
  tag byte, then reads the opcode's operand width of little-endian bytes.
- `ins` is equal to a table lookup on the first byte (`DecodeByTable`).
- The order of the alternatives does not change what `ins` returns.
- Decoding inverts encoding in both directions, for single instructions,
  for runs of instructions and for headers.

The sixty-case proofs (`Opcodes.DeclaredPosition`, `Opcodes.OpByteOfFromByte`,
`Bytecode.PartsOfMake`, `Bytecode.MakeOfParts`) are split into lemmas over
slices of the declaration, named `...In0` to `...In19`. A dispatcher lemma
picks the slice, which keeps each proof small.

What the code does, and the model with it:

- The header fields are read with `le_i32` and stored as `i32` (src/parser.rs:145-163).
- There are 60 opcodes, UNDEF = 0 to CVFI = 59.
- A bad magic number is nom's `Error(Tag)`.
- Input that is shorter than the magic number but agrees with it so far is
  `Incomplete`.
- Only this one header layout is recognised.

## Model

| member | source | states |
|---|---|---|
| LittleEndian.LeValue | src/parser.rs:27-37 | the little-endian value of n bytes is below 256^n |
| LittleEndian.LeU32 | src/parser.rs:27-31 | `le_u32` of four bytes is their little-endian value and fits in 32 bits |
| LittleEndian.LeU32Shifts | src/parser.rs:27-31 | `le_u32` of four bytes is the first byte plus the second shifted by 8, the third by 16 and the fourth by 24 |
| LittleEndian.LeBytes | src/parser.rs:27-37 | writing a value into `width` bytes gives `width` bytes whose little-endian value is the value |
| LittleEndian.LeBytesOfValue | src/parser.rs:27-37 | reading bytes as a number and writing the number back gives the same bytes |
| LittleEndian.ToI32 | src/parser.rs:157-163 | `u32 as i32`: non-negative exactly below 2^31, and congruent to the bit pattern modulo 2^32 |
| LittleEndian.FromI32 | src/parser.rs:157-163 | `i32 as u32`: congruent to the signed value modulo 2^32 |
| LittleEndian.I32BitPattern | src/parser.rs:157-163 | the two reinterpretations are inverse bijections between `u32` and `i32` |
| Opcodes.OpByte | src/opcodes.rs:6-85 | every opcode's byte (`$op as Input`) is below the opcode count of 60 |
| Opcodes.FromByte | src/opcodes.rs:6-85 | a byte names an opcode exactly when it is below 60 |
| Opcodes.DeclaredPosition | src/opcodes.rs:6-85 | the declaration lists 60 opcodes, and each opcode's byte is its position in the declaration |
| Opcodes.FromByteOfOpByte | src/opcodes.rs:6-85 | reading back an opcode's byte gives the opcode |
| Opcodes.OpByteOfFromByte | src/opcodes.rs:6-85 | every byte below 60 is the byte of the opcode it names, so the numbering has no gaps |
| Opcodes.OpByteInjective | src/opcodes.rs:6-85 | two opcodes have the same byte if and only if they are the same opcode |
| Opcodes.FixedBytes | src/parser.rs:183-209 | UNDEF is 0, BREAK is 2, ENTER is 3, ARG is 0x21 and CVFI is 59 |
| Opcodes.ComparisonRange | src/opcodes.rs:24-43 | an opcode is one of the sixteen comparisons EQ..GEF if and only if its byte is in 11..26 |
| Bytecode.OperandShapes | src/bytecode.rs:4-104 | the operand widths follow the payload types, and with them the schema each `op_*` instance uses at src/parser.rs:40-117: only ARG has a 1-byte operand (`op_u8!`); exactly ENTER, LEAVE, CONST, LOCAL, BLOCK_COPY and the comparisons have 4-byte operands (`op_u32!`); every other opcode has none (`op!`) |
| Bytecode.OperandWidth | src/parser.rs:40-117 | an opcode's operand is 0 (`op!`), 1 (`op_u8!`) or 4 (`op_u32!`) bytes wide |
| Bytecode.Operand | src/bytecode.rs:25-104 | an instruction's operand fits in its opcode's operand width |
| Bytecode.PartsOfMake | src/bytecode.rs:21-104 | `Make`, the `$ins(operand)` step of `op_fn!` (src/parser.rs:21) and the `$ins` of `op!`, builds an instruction that has the given opcode and carries the given operand |
| Bytecode.MakeOfParts | src/bytecode.rs:21-104 | every instruction is the one `Make` builds from its opcode (`OpcodeOf`) and its operand, so variants and opcodes are paired one to one, as "These should match their opcodes" asks |
| Bytecode.StructuralEquality | src/bytecode.rs:24 | two instructions are equal if and only if they have the same opcode and the same operand |
| Parser.ParseTag | src/parser.rs:10 | `tag!` succeeds exactly when the input starts with the tag, consuming it; it fails with Tag exactly when the available bytes disagree with the tag; otherwise it is incomplete |
| Parser.ParseLeU8 | src/parser.rs:33-37 | `le_u8` succeeds on one byte or more, consuming one, and never errs |
| Parser.ParseLeU32 | src/parser.rs:27-31 | `le_u32` succeeds on four bytes or more, consuming four and returning their little-endian value, and never errs |
| Parser.ParseLeI32 | src/parser.rs:157-163 | `le_i32` succeeds on four bytes or more, consuming four and returning their two's-complement value, and never errs |
| Parser.Op | src/parser.rs:7-13 | `op!`: incomplete on no input, Tag error on another first byte, otherwise the instruction after exactly one byte |
| Parser.OpU32 | src/parser.rs:15-31 | `op_u32!`, that is `op_fn!` (`OpFn`) with `le_u32`: incomplete on no input, Tag error on another first byte, incomplete below five bytes, otherwise the instruction of the little-endian operand in bytes 1..4 after exactly five bytes |
| Parser.OpU8 | src/parser.rs:15-25 | `op_u8!`: the same with one operand byte, after exactly two bytes |
| Parser.Alt | src/parser.rs:120-141 | `alt!` fails only with Alt: a failure of an alternative never escapes as the result |
| Parser.OpParse | src/parser.rs:40-117 | each of the sixty `op_*` parsers checks its opcode's byte, then reads its operand width of bytes and builds the instruction of that opcode |
| Parser.OpParseFails | src/parser.rs:40-117 | a per-opcode parser fails exactly when the first byte is not its tag, and is incomplete on no input |
| Parser.OpParseConsumes | src/parser.rs:15-25 | a per-opcode parser that succeeds consumes exactly its tag and its operand bytes, and yields an instruction of its opcode whose operand is the little-endian value of those bytes |
| Parser.InsAlternativesComplete | src/parser.rs:120-141 | `ins` lists 60 alternatives, and every opcode's parser is listed at the position of its byte |
| Parser.AltOnEmptyInput | src/parser.rs:120-141 | `alt!` over per-opcode parsers is incomplete on no input |
| Parser.AltSelects | src/parser.rs:120-141 | `Alt` (`alt!`) over per-opcode parsers: when the first byte is the byte of an opcode, it gives that opcode's parser's result if the parser is listed, and fails with Alt if it is not |
| Parser.AltRejects | src/parser.rs:120-141 | `Alt` (`alt!`): a first byte of 60 or more makes every alternative fail, and then the choice fails with Alt |
| Parser.AltOrderIrrelevant | src/parser.rs:120-141 | two lists of the same per-opcode parsers, in any order, decode every input alike |
| Parser.InsIsTableDriven | src/parser.rs:120-141 | `Ins` (`ins`) decodes as the lookup of the first byte in the opcode table followed by that opcode's tag-and-operand parse: an error with Alt on a byte that is no opcode, incomplete on no input |
| Parser.InsOnOpcode | src/parser.rs:120-141 | on the byte of an opcode, `ins` decodes as that opcode's parser does |
| Parser.InsOutcome | src/parser.rs:120-141 | `ins` succeeds if and only if the first byte is below 60 and all its operand bytes are present; it errs, with Alt, if and only if the first byte is 60 or more; so on no input or on a short operand it is incomplete |
| Parser.Encode | src/parser.rs:15-25 | an instruction's encoding is its opcode byte followed by its operand width of bytes |
| Parser.InsRoundTrip | src/parser.rs:120-141 | every instruction decodes from its encoding, with whatever follows left as the remainder |
| Parser.InsSound | src/parser.rs:120-141 | when `ins` succeeds, the input is the encoding of the decoded instruction followed by the remainder |
| Parser.InsTruncated | src/parser.rs:15-25 | an encoding cut short anywhere is incomplete, never an error |
| Parser.DecodeN | src/parser.rs:237 | `count!(ins, n)` returns exactly n instructions on success; an error is always of kind Count; with n > 0, a first instruction that fails makes it fail with Count and one that is incomplete makes it incomplete |
| Parser.DecodeNSound | src/parser.rs:237 | when `count!(ins, n)` succeeds, the input is the encoding of the decoded instructions followed by the remainder |
| Parser.DecodeNRoundTrip | src/parser.rs:237 | any run of instructions decodes from its encoding, whatever follows it |
| Parser.MagicValue | src/parser.rs:156 | the magic number is four bytes whose little-endian value is 0x12721444 |
| Parser.ParseHeader | src/parser.rs:154-176 | `header` succeeds exactly on 32 bytes or more that start with the magic number, and consumes exactly 32; it fails with Tag exactly when the available bytes disagree with the magic number; on success the fields are the `i32` values at offsets 4, 8, ..., 28, in the order count, code offset, code length, data offset, data length, lit length, bss length |
| Parser.I32Bytes | src/parser.rs:157-163 | an `i32` field is written as four bytes |
| Parser.I32BytesRoundTrip | src/parser.rs:157-163 | a field written as four bytes reads back as the same value |
| Parser.I32AtBytes | src/parser.rs:157-163 | any four bytes are the written form of the field read from them |
| Parser.FieldAt | src/parser.rs:157-163 | a field written at an offset reads back from that offset, leaving what follows it |
| Parser.HeaderLayout | src/parser.rs:154-163 | the encoding of a header is the magic number followed by the seven fields in file order |
| Parser.HeaderRoundTrip | src/parser.rs:154-176 | every header decodes from its encoding, whatever follows it |
| Parser.HeaderSound | src/parser.rs:154-176 | when `header` succeeds, the input is the encoding of the decoded header followed by the remainder |
| ParserTests.BreakExactMatch | src/parser.rs:183-188 | `op_break` on `[0x2]` yields BREAK with nothing left |
| ParserTests.BreakTagMismatch | src/parser.rs:190-195 | `op_break` on `[0x0]` fails with Tag |
| ParserTests.EnterExactMatch | src/parser.rs:197-202 | `op_enter` on `[0x3, 0x42, 0, 0, 0]` yields ENTER(0x42) with nothing left |
| ParserTests.ArgExactMatch | src/parser.rs:204-209 | `op_arg` on `[0x21, 0x42]` yields ARG(0x42) with nothing left |
| ParserTests.InsEnterExactMatch | src/parser.rs:211-216 | `ins` on `[0x3, 0x42, 0, 0, 0]` yields ENTER(0x42) with nothing left |
| ParserTests.ModHeaderEncoding | src/parser.rs:218-232 | the expected header of the test asset is written as these 32 bytes |
| ParserTests.HeaderFile | src/parser.rs:218-232 | `header` yields the expected header with nothing left if and only if the 32 bytes are these |
| ParserTests.ModCodeEncoding | src/parser.rs:234-247 | the five expected instructions of the test asset are written as these 21 bytes |
| ParserTests.InsFile | src/parser.rs:234-247 | `count!(ins, 5)` yields ENTER(8), CONST(4294967295), LEAVE(8), PUSH, LEAVE(8) with nothing left if and only if the 21 bytes are these |

## Left out

- src/native.rs is not part of this model. It holds the C entry points and a
  global VM behind a lock: foreign calls and shared state, with no decoding.
- src/errors.rs is not part of this model. It wraps nom's error type. Results
  are modelled as Done, Error or Incomplete, with only the error kinds Tag,
  Alt and Count.
- The benchmark harness and src/lib.rs are not part of this model. They are
  file reading and module wiring.
- Segment extraction, padding and whole-image assembly (`parse_qvm`, `QVM`)
  are not defined in the modelled source files, so they are not modelled.
  The model stops at `count!(ins, n)` and `header`.
- `VM_MAGIC` is not defined in the modelled source files. The model uses
  ioquake3's value 0x12721444, stored least-significant byte first.
- nom's `Needed` sizes are not modelled. `Incomplete` carries no size.
- The order in which `alt!` tries its alternatives is not modelled as
  observable. Only the outcome is, and it does not depend on that order.
- The bytes of the test asset are not available. The two file tests are
  stated as "yields the expected value if and only if the bytes are these".
- Signed operands are not modelled. CONST keeps the raw bit pattern
  0xFFFFFFFF, as the decoder does, and nothing reinterprets it as -1.
- Branch addresses are not checked against the instruction count. They are
  plain 32-bit values, because the decoder does not check them either.
- The float opcodes have names and bytes only. Nothing about what they
  compute is modelled.
