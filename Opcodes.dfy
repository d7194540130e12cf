/**
 * Instruction selection: which arm of the interpreter's `match (hi, lo)` an
 * instruction's two bytes fall into, with the operands that arm extracts.
 * The operand fields are `x = hi & 0x0f`, `y = (lo & 0xf0) >> 4`,
 * `n = lo & 0x0f`, `nn = lo` and `nnn = lo | (hi & 0x0f) << 8`, written
 * here with division and remainder by powers of two.
 */
module Opcodes {
  import opened Bytes

  /** A register index, a nibble. */
  type Reg = x: nat | x < 16

  /** A 12-bit address taken from an instruction. */
  type Addr = a: nat | a < 0x1000

  datatype Instr =
    | ClearScreen                      // 00E0
    | Return                           // 00EE
    | Jump(addr: Addr)                 // 1nnn
    | Call(addr: Addr)                 // 2nnn
    | SkipEqImm(x: Reg, nn: u8)        // 3xnn
    | SkipNeImm(x: Reg, nn: u8)        // 4xnn
    | SkipEqReg(x: Reg, y: Reg)        // 5xy0
    | LoadImm(x: Reg, nn: u8)          // 6xnn
    | AddImm(x: Reg, nn: u8)           // 7xnn
    | Move(x: Reg, y: Reg)             // 8xy0
    | Or(x: Reg, y: Reg)               // 8xy1
    | And(x: Reg, y: Reg)              // 8xy2
    | Xor(x: Reg, y: Reg)              // 8xy3
    | AddReg(x: Reg, y: Reg)           // 8xy4
    | SubReg(x: Reg, y: Reg)           // 8xy5
    | ShiftRight(x: Reg, y: Reg)       // 8xy6
    | SubReverse(x: Reg, y: Reg)       // 8xy7
    | ShiftLeft(x: Reg, y: Reg)        // 8xyE
    | SkipNeReg(x: Reg, y: Reg)        // 9xy0
    | SetIndex(addr: Addr)             // Annn
    | JumpOffset(addr: Addr)           // Bnnn
    | Random(x: Reg, nn: u8)           // Cxnn
    | Draw(x: Reg, y: Reg, n: Reg)     // Dxyn
    | SkipPressed(x: Reg)              // Ex9E
    | SkipNotPressed(x: Reg)           // ExA1
    | GetDelay(x: Reg)                 // Fx07
    | WaitKey(x: Reg)                  // Fx0A
    | SetDelay(x: Reg)                 // Fx15
    | SetSound(x: Reg)                 // Fx18
    | AddIndex(x: Reg)                 // Fx1E
    | FontSprite(x: Reg)               // Fx29
    | StoreBcd(x: Reg)                 // Fx33
    | StoreRegs(x: Reg)                // Fx55
    | LoadRegs(x: Reg)                 // Fx65
    | Illegal                          // every other pattern: the two `panic!` arms

  /** The arm of the interpreter's `match` that the bytes `hi`, `lo` select. */
  function Decode(hi: u8, lo: u8): Instr
  {
    var x: Reg := hi as nat % 16;
    var y: Reg := lo as nat / 16;
    var n: Reg := lo as nat % 16;
    var nnn: Addr := x * 256 + lo as nat;
    match hi as nat / 16
    case 0x0 =>
      if hi == 0x00 && lo == 0xE0 then ClearScreen
      else if hi == 0x00 && lo == 0xEE then Return
      else Illegal
    case 0x1 => Jump(nnn)
    case 0x2 => Call(nnn)
    case 0x3 => SkipEqImm(x, lo)
    case 0x4 => SkipNeImm(x, lo)
    case 0x5 => if n == 0 then SkipEqReg(x, y) else Illegal
    case 0x6 => LoadImm(x, lo)
    case 0x7 => AddImm(x, lo)
    case 0x8 =>
      (match n
       case 0x0 => Move(x, y)
       case 0x1 => Or(x, y)
       case 0x2 => And(x, y)
       case 0x3 => Xor(x, y)
       case 0x4 => AddReg(x, y)
       case 0x5 => SubReg(x, y)
       case 0x6 => ShiftRight(x, y)
       case 0x7 => SubReverse(x, y)
       case 0xE => ShiftLeft(x, y)
       case _ => Illegal)
    case 0x9 => if n == 0 then SkipNeReg(x, y) else Illegal
    case 0xA => SetIndex(nnn)
    case 0xB => JumpOffset(nnn)
    case 0xC => Random(x, lo)
    case 0xD => Draw(x, y, n)
    case 0xE =>
      if lo == 0x9E then SkipPressed(x)
      else if lo == 0xA1 then SkipNotPressed(x)
      else Illegal
    case 0xF =>
      (match lo
       case 0x07 => GetDelay(x)
       case 0x0A => WaitKey(x)
       case 0x15 => SetDelay(x)
       case 0x18 => SetSound(x)
       case 0x1E => AddIndex(x)
       case 0x29 => FontSprite(x)
       case 0x33 => StoreBcd(x)
       case 0x55 => StoreRegs(x)
       case 0x65 => LoadRegs(x)
       case _ => Illegal)
  }

  /** The two bytes `(hi, lo)` of a 16-bit instruction word, high byte first. */
  function Bytes2(word: nat): (b: (u8, u8))
    requires word < 0x10000
    ensures b.0 as nat * 256 + b.1 as nat == word
  {
    ((word / 256) as u8, (word % 256) as u8)
  }

  /** The bytes built from a family nibble, a register nibble and a low byte. */
  function Pack(family: nat, x: nat, lo: nat): (u8, u8)
    requires family < 16 && x < 16 && lo < 256
  {
    ((family * 16 + x) as u8, lo as u8)
  }

  /** The canonical bytes of a legal instruction (the assembler's view). */
  function Encode(ins: Instr): (u8, u8)
    requires ins != Illegal
  {
    match ins
    case ClearScreen => Pack(0x0, 0, 0xE0)
    case Return => Pack(0x0, 0, 0xEE)
    case Jump(a) => Pack(0x1, a / 256, a % 256)
    case Call(a) => Pack(0x2, a / 256, a % 256)
    case SkipEqImm(x, nn) => Pack(0x3, x, nn as nat)
    case SkipNeImm(x, nn) => Pack(0x4, x, nn as nat)
    case SkipEqReg(x, y) => Pack(0x5, x, y * 16)
    case LoadImm(x, nn) => Pack(0x6, x, nn as nat)
    case AddImm(x, nn) => Pack(0x7, x, nn as nat)
    case Move(x, y) => Pack(0x8, x, y * 16)
    case Or(x, y) => Pack(0x8, x, y * 16 + 0x1)
    case And(x, y) => Pack(0x8, x, y * 16 + 0x2)
    case Xor(x, y) => Pack(0x8, x, y * 16 + 0x3)
    case AddReg(x, y) => Pack(0x8, x, y * 16 + 0x4)
    case SubReg(x, y) => Pack(0x8, x, y * 16 + 0x5)
    case ShiftRight(x, y) => Pack(0x8, x, y * 16 + 0x6)
    case SubReverse(x, y) => Pack(0x8, x, y * 16 + 0x7)
    case ShiftLeft(x, y) => Pack(0x8, x, y * 16 + 0xE)
    case SkipNeReg(x, y) => Pack(0x9, x, y * 16)
    case SetIndex(a) => Pack(0xA, a / 256, a % 256)
    case JumpOffset(a) => Pack(0xB, a / 256, a % 256)
    case Random(x, nn) => Pack(0xC, x, nn as nat)
    case Draw(x, y, n) => Pack(0xD, x, y * 16 + n)
    case SkipPressed(x) => Pack(0xE, x, 0x9E)
    case SkipNotPressed(x) => Pack(0xE, x, 0xA1)
    case GetDelay(x) => Pack(0xF, x, 0x07)
    case WaitKey(x) => Pack(0xF, x, 0x0A)
    case SetDelay(x) => Pack(0xF, x, 0x15)
    case SetSound(x) => Pack(0xF, x, 0x18)
    case AddIndex(x) => Pack(0xF, x, 0x1E)
    case FontSprite(x) => Pack(0xF, x, 0x29)
    case StoreBcd(x) => Pack(0xF, x, 0x33)
    case StoreRegs(x) => Pack(0xF, x, 0x55)
    case LoadRegs(x) => Pack(0xF, x, 0x65)
  }

  // DecodeEncode0..6 prove `DecodeEncode` a few arms at a time.

  lemma DecodeEncode0(ins: Instr)
    requires ins.ClearScreen? || ins.Return? || ins.Jump? || ins.Call? || ins.SkipEqImm?
    ensures Decode(Encode(ins).0, Encode(ins).1) == ins
  {
    match ins
    case ClearScreen =>
    case Return =>
    case Jump(a) => assert a == a / 256 * 256 + a % 256;
    case Call(a) => assert a == a / 256 * 256 + a % 256;
    case SkipEqImm(x, nn) =>
  }

  lemma DecodeEncode1(ins: Instr)
    requires ins.SkipNeImm? || ins.SkipEqReg? || ins.LoadImm? || ins.AddImm?
    ensures Decode(Encode(ins).0, Encode(ins).1) == ins
  {
    match ins
    case SkipNeImm(x, nn) =>
    case SkipEqReg(x, y) =>
    case LoadImm(x, nn) =>
    case AddImm(x, nn) =>
  }

  lemma DecodeEncode2(ins: Instr)
    requires ins.Move? || ins.Or? || ins.And? || ins.Xor? || ins.AddReg?
    ensures Decode(Encode(ins).0, Encode(ins).1) == ins
  {
    match ins
    case Move(x, y) =>
    case Or(x, y) =>
    case And(x, y) =>
    case Xor(x, y) =>
    case AddReg(x, y) =>
  }

  lemma DecodeEncode3(ins: Instr)
    requires ins.SubReg? || ins.ShiftRight? || ins.SubReverse? || ins.ShiftLeft? || ins.SkipNeReg?
    ensures Decode(Encode(ins).0, Encode(ins).1) == ins
  {
    match ins
    case SubReg(x, y) =>
    case ShiftRight(x, y) =>
    case SubReverse(x, y) =>
    case ShiftLeft(x, y) =>
    case SkipNeReg(x, y) =>
  }

  lemma DecodeEncode4(ins: Instr)
    requires ins.SetIndex? || ins.JumpOffset? || ins.Random? || ins.Draw? || ins.SkipPressed? || ins.SkipNotPressed?
    ensures Decode(Encode(ins).0, Encode(ins).1) == ins
  {
    match ins
    case SetIndex(a) => assert a == a / 256 * 256 + a % 256;
    case JumpOffset(a) => assert a == a / 256 * 256 + a % 256;
    case Random(x, nn) =>
    case Draw(x, y, n) =>
    case SkipPressed(x) =>
    case SkipNotPressed(x) =>
  }

  lemma DecodeEncode5(ins: Instr)
    requires ins.GetDelay? || ins.WaitKey? || ins.SetDelay? || ins.SetSound? || ins.AddIndex?
    ensures Decode(Encode(ins).0, Encode(ins).1) == ins
  {
    match ins
    case GetDelay(x) =>
    case WaitKey(x) =>
    case SetDelay(x) =>
    case SetSound(x) =>
    case AddIndex(x) =>
  }

  lemma DecodeEncode6(ins: Instr)
    requires ins.FontSprite? || ins.StoreBcd? || ins.StoreRegs? || ins.LoadRegs?
    ensures Decode(Encode(ins).0, Encode(ins).1) == ins
  {
    match ins
    case FontSprite(x) =>
    case StoreBcd(x) =>
    case StoreRegs(x) =>
    case LoadRegs(x) =>
  }

  /** Decoding the bytes of a legal instruction gives that instruction back. */
  lemma DecodeEncode(ins: Instr)
    requires ins != Illegal
    ensures Decode(Encode(ins).0, Encode(ins).1) == ins
  {
    match ins
    case ClearScreen | Return | Jump(_) | Call(_) | SkipEqImm(_, _) => DecodeEncode0(ins);
    case SkipNeImm(_, _) | SkipEqReg(_, _) | LoadImm(_, _) | AddImm(_, _) => DecodeEncode1(ins);
    case Move(_, _) | Or(_, _) | And(_, _) | Xor(_, _) | AddReg(_, _) => DecodeEncode2(ins);
    case SubReg(_, _) | ShiftRight(_, _) | SubReverse(_, _) | ShiftLeft(_, _) | SkipNeReg(_, _) => DecodeEncode3(ins);
    case SetIndex(_) | JumpOffset(_) | Random(_, _) | Draw(_, _, _) | SkipPressed(_) | SkipNotPressed(_) => DecodeEncode4(ins);
    case GetDelay(_) | WaitKey(_) | SetDelay(_) | SetSound(_) | AddIndex(_) => DecodeEncode5(ins);
    case FontSprite(_) | StoreBcd(_) | StoreRegs(_) | LoadRegs(_) => DecodeEncode6(ins);
  }

  /** Every pattern an arm accepts is the encoding of the instruction it decodes to. */
  lemma EncodeDecode(hi: u8, lo: u8)
    requires Decode(hi, lo) != Illegal
    ensures Encode(Decode(hi, lo)) == (hi, lo)
  {
    var family := hi as nat / 16;
    if family < 0x5 {
      EncodeDecode0(hi, lo);
    } else if family < 0x8 {
      EncodeDecode1(hi, lo);
    } else if family == 0x8 {
      EncodeDecode2(hi, lo);
    } else if family < 0xE {
      EncodeDecode3(hi, lo);
    } else {
      EncodeDecode4(hi, lo);
    }
  }

  // EncodeDecode0..4 prove `EncodeDecode` a few families at a time.

  lemma EncodeDecode0(hi: u8, lo: u8)
    requires Decode(hi, lo) != Illegal && 0x0 <= hi as nat / 16 <= 0x4
    ensures Encode(Decode(hi, lo)) == (hi, lo)
  {
  }

  lemma EncodeDecode1(hi: u8, lo: u8)
    requires Decode(hi, lo) != Illegal && 0x5 <= hi as nat / 16 <= 0x7
    ensures Encode(Decode(hi, lo)) == (hi, lo)
  {
  }

  lemma EncodeDecode2(hi: u8, lo: u8)
    requires Decode(hi, lo) != Illegal && hi as nat / 16 == 0x8
    ensures Encode(Decode(hi, lo)) == (hi, lo)
  {
  }

  lemma EncodeDecode3(hi: u8, lo: u8)
    requires Decode(hi, lo) != Illegal && 0x9 <= hi as nat / 16 <= 0xD
    ensures Encode(Decode(hi, lo)) == (hi, lo)
  {
  }

  lemma EncodeDecode4(hi: u8, lo: u8)
    requires Decode(hi, lo) != Illegal && 0xE <= hi as nat / 16 <= 0xF
    ensures Encode(Decode(hi, lo)) == (hi, lo)
  {
  }

  /**
   * The patterns with no arm: a 0-family word other than 00E0 and 00EE, a
   * 5xy?/9xy? with a non-zero low nibble, an 8xy? with a low nibble outside
   * 0-7 and E, an Ex?? other than Ex9E/ExA1, and an Fx?? outside the nine
   * F-family operations.
   */
  predicate Unmatched(hi: u8, lo: u8)
  {
    var family, n := hi as nat / 16, lo as nat % 16;
    || (family == 0x0 && !(hi == 0 && (lo == 0xE0 || lo == 0xEE)))
    || ((family == 0x5 || family == 0x9) && n != 0)
    || (family == 0x8 && 0x8 <= n <= 0xD)
    || (family == 0x8 && n == 0xF)
    || (family == 0xE && lo != 0x9E && lo != 0xA1)
    || (family == 0xF && lo !in {0x07, 0x0A, 0x15, 0x18, 0x1E, 0x29, 0x33, 0x55, 0x65})
  }

  /** An instruction is illegal exactly when it matches none of the patterns. */
  lemma IllegalIffUnmatched(hi: u8, lo: u8)
    ensures Decode(hi, lo) == Illegal <==> Unmatched(hi, lo)
  {
  }

  /** Bnnn jumps relative to V0 whatever its second nibble: that nibble is part of nnn. */
  lemma JumpOffsetIgnoresX(hi: u8, lo: u8)
    requires hi as nat / 16 == 0xB
    ensures Decode(hi, lo) == JumpOffset((hi as nat % 16) * 256 + lo as nat)
  {
  }
}
