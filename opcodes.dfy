/** Instruction words of the CHIP-8 / SuperChip-8 machine and the decoder that
    `CPU::ParseOpcodes` (ChipEi/CPU.cpp) applies to them. */
module Opcodes {

  /** The C++ integer types, as ranges of the mathematical integers. Every
      arithmetic operation on them in this model wraps explicitly. */
  type Byte = b: int | 0 <= b < 0x100       // uint8_t
  type Word = w: int | 0 <= w < 0x10000     // uint16_t
  type Nibble = n: int | 0 <= n < 0x10      // a 4-bit operand field
  type Address = a: int | 0 <= a < 0x1000   // the 12-bit operand nnn

  /** The bitwise operators on `uint8_t`. */
  function BitOr(a: Byte, b: Byte): Byte { ((a as bv8) | (b as bv8)) as int }
  function BitAnd(a: Byte, b: Byte): Byte { ((a as bv8) & (b as bv8)) as int }
  function BitXor(a: Byte, b: Byte): Byte { ((a as bv8) ^ (b as bv8)) as int }

  /** A decoded instruction. Operand fields keep the widths they have in the
      16-bit word: x = bits 11..8, y = bits 7..4, n = bits 3..0,
      kk = bits 7..0, nnn = bits 11..0. */
  datatype Instr =
    | Cls                                  // 00E0
    | Ret                                  // 00EE
    | ScrollDown(n: Nibble)                // 00Cn
    | ScrollUp(n: Nibble)                  // 00Bn
    | ScrollRight                          // 00FB, an empty handler
    | ScrollLeft                           // 00FC, an empty handler
    | Exit                                 // 00FD
    | LowRes                               // 00FE
    | HighRes                              // 00FF
    | Jump(nnn: Address)                   // 1nnn
    | Call(nnn: Address)                   // 2nnn
    | SkipEqImm(x: Nibble, kk: Byte)       // 3xkk
    | SkipNeImm(x: Nibble, kk: Byte)       // 4xkk
    | SkipEqReg(x: Nibble, y: Nibble)      // 5xy_ (the low nibble is not inspected)
    | LoadImm(x: Nibble, kk: Byte)         // 6xkk
    | AddImm(x: Nibble, kk: Byte)          // 7xkk
    | Move(x: Nibble, y: Nibble)           // 8xy0
    | Or(x: Nibble, y: Nibble)             // 8xy1
    | And(x: Nibble, y: Nibble)            // 8xy2
    | Xor(x: Nibble, y: Nibble)            // 8xy3
    | Add(x: Nibble, y: Nibble)            // 8xy4
    | Sub(x: Nibble, y: Nibble)            // 8xy5
    | Shr(x: Nibble, y: Nibble)            // 8xy6
    | SubN(x: Nibble, y: Nibble)           // 8xy7
    | Shl(x: Nibble, y: Nibble)            // 8xyE
    | SkipNeReg(x: Nibble, y: Nibble)      // 9xy_ (the low nibble is not inspected)
    | LoadIndex(nnn: Address)              // Annn
    | JumpV0(nnn: Address)                 // Bnnn
    | Random(x: Nibble, kk: Byte)          // Cxkk
    | Draw(x: Nibble, y: Nibble, n: Nibble) // Dxyn
    | DrawLarge(x: Nibble, y: Nibble)      // Dxy0
    | SkipKey(x: Nibble)                   // Ex_E
    | SkipNotKey(x: Nibble)                // Ex_1
    | GetDelay(x: Nibble)                  // Fx07
    | WaitKey(x: Nibble)                   // Fx0A
    | SetDelay(x: Nibble)                  // Fx15
    | SetSound(x: Nibble)                  // Fx18
    | AddIndex(x: Nibble)                  // Fx1E
    | FontSmall(x: Nibble)                 // Fx29
    | FontLarge(x: Nibble)                 // Fx30
    | Bcd(x: Nibble)                       // Fx33
    | Store(x: Nibble)                     // Fx55
    | Load(x: Nibble)                      // Fx65
    | SaveFlags(x: Nibble)                 // Fx75
    | LoadFlags(x: Nibble)                 // Fx85
    | Nop                                  // a sub-code that no case of the switch matches

  // The instruction class and the operand fields: what the masks and shifts
  // of the handlers extract, written as digit arithmetic.
  function Class(w: Word): Nibble { w / 0x1000 }
  function X(w: Word): Nibble { (w / 0x100) % 0x10 }
  function Y(w: Word): Nibble { (w / 0x10) % 0x10 }
  function N(w: Word): Nibble { w % 0x10 }
  function KK(w: Word): Byte { w % 0x100 }
  function NNN(w: Word): Address { w % 0x1000 }

  /** Class 0: 00Bn and 00Cn are recognised by bits 7..4 alone, before the
      switch on the low byte; every other low byte is a no-op. */
  function DecodeSystem(w: Word): Instr {
    if Y(w) == 0xB then ScrollUp(N(w))
    else if Y(w) == 0xC then ScrollDown(N(w))
    else if KK(w) == 0xE0 then Cls
    else if KK(w) == 0xEE then Ret
    else if KK(w) == 0xFB then ScrollRight
    else if KK(w) == 0xFC then ScrollLeft
    else if KK(w) == 0xFD then Exit
    else if KK(w) == 0xFE then LowRes
    else if KK(w) == 0xFF then HighRes
    else Nop
  }

  /** Class 8: switch on the low nibble. */
  function DecodeAlu(w: Word): Instr {
    var x, y := X(w), Y(w);
    if N(w) == 0x0 then Move(x, y)
    else if N(w) == 0x1 then Or(x, y)
    else if N(w) == 0x2 then And(x, y)
    else if N(w) == 0x3 then Xor(x, y)
    else if N(w) == 0x4 then Add(x, y)
    else if N(w) == 0x5 then Sub(x, y)
    else if N(w) == 0x6 then Shr(x, y)
    else if N(w) == 0x7 then SubN(x, y)
    else if N(w) == 0xE then Shl(x, y)
    else Nop
  }

  /** Class F: switch on the low byte. */
  function DecodeMisc(w: Word): Instr {
    var x := X(w);
    if KK(w) == 0x07 then GetDelay(x)
    else if KK(w) == 0x0A then WaitKey(x)
    else if KK(w) == 0x15 then SetDelay(x)
    else if KK(w) == 0x18 then SetSound(x)
    else if KK(w) == 0x1E then AddIndex(x)
    else if KK(w) == 0x29 then FontSmall(x)
    else if KK(w) == 0x30 then FontLarge(x)
    else if KK(w) == 0x33 then Bcd(x)
    else if KK(w) == 0x55 then Store(x)
    else if KK(w) == 0x65 then Load(x)
    else if KK(w) == 0x75 then SaveFlags(x)
    else if KK(w) == 0x85 then LoadFlags(x)
    else Nop
  }

  /** The switch of `CPU::ParseOpcodes`. It is total: all sixteen values of
      the top nibble have a case, so its `default:` branch is never taken,
      and unmatched sub-codes of classes 0, 8, E and F do nothing. */
  function Decode(w: Word): (i: Instr)
    ensures i.Draw? ==> i.n != 0
    ensures i.DrawLarge? <==> Class(w) == 0xD && N(w) == 0
    ensures i.Jump? || i.Call? || i.LoadIndex? || i.JumpV0? ==> i.nnn == NNN(w)
  {
    var top := Class(w);
    if top == 0x0 then DecodeSystem(w)
    else if top == 0x1 then Jump(NNN(w))
    else if top == 0x2 then Call(NNN(w))
    else if top == 0x3 then SkipEqImm(X(w), KK(w))
    else if top == 0x4 then SkipNeImm(X(w), KK(w))
    else if top == 0x5 then SkipEqReg(X(w), Y(w))
    else if top == 0x6 then LoadImm(X(w), KK(w))
    else if top == 0x7 then AddImm(X(w), KK(w))
    else if top == 0x8 then DecodeAlu(w)
    else if top == 0x9 then SkipNeReg(X(w), Y(w))
    else if top == 0xA then LoadIndex(NNN(w))
    else if top == 0xB then JumpV0(NNN(w))
    else if top == 0xC then Random(X(w), KK(w))
    else if top == 0xD then (if N(w) == 0 then DrawLarge(X(w), Y(w)) else Draw(X(w), Y(w), N(w)))
    else if top == 0xE then
      (if N(w) == 0x1 then SkipNotKey(X(w)) else if N(w) == 0xE then SkipKey(X(w)) else Nop)
    else DecodeMisc(w)
  }

  // Canonical encodings, the inverse of Decode.
  function Nnn(c: Nibble, nnn: Address): Word { c * 0x1000 + nnn }
  function Xkk(c: Nibble, x: Nibble, kk: Byte): Word { c * 0x1000 + x * 0x100 + kk }
  function Xyn(c: Nibble, x: Nibble, y: Nibble, n: Nibble): Word { c * 0x1000 + x * 0x100 + y * 0x10 + n }

  function Encode(i: Instr): Word {
    match i
    case Cls => 0x00E0
    case Ret => 0x00EE
    case ScrollDown(n) => Xyn(0x0, 0x0, 0xC, n)
    case ScrollUp(n) => Xyn(0x0, 0x0, 0xB, n)
    case ScrollRight => 0x00FB
    case ScrollLeft => 0x00FC
    case Exit => 0x00FD
    case LowRes => 0x00FE
    case HighRes => 0x00FF
    case Jump(nnn) => Nnn(0x1, nnn)
    case Call(nnn) => Nnn(0x2, nnn)
    case SkipEqImm(x, kk) => Xkk(0x3, x, kk)
    case SkipNeImm(x, kk) => Xkk(0x4, x, kk)
    case SkipEqReg(x, y) => Xyn(0x5, x, y, 0)
    case LoadImm(x, kk) => Xkk(0x6, x, kk)
    case AddImm(x, kk) => Xkk(0x7, x, kk)
    case Move(x, y) => Xyn(0x8, x, y, 0x0)
    case Or(x, y) => Xyn(0x8, x, y, 0x1)
    case And(x, y) => Xyn(0x8, x, y, 0x2)
    case Xor(x, y) => Xyn(0x8, x, y, 0x3)
    case Add(x, y) => Xyn(0x8, x, y, 0x4)
    case Sub(x, y) => Xyn(0x8, x, y, 0x5)
    case Shr(x, y) => Xyn(0x8, x, y, 0x6)
    case SubN(x, y) => Xyn(0x8, x, y, 0x7)
    case Shl(x, y) => Xyn(0x8, x, y, 0xE)
    case SkipNeReg(x, y) => Xyn(0x9, x, y, 0)
    case LoadIndex(nnn) => Nnn(0xA, nnn)
    case JumpV0(nnn) => Nnn(0xB, nnn)
    case Random(x, kk) => Xkk(0xC, x, kk)
    case Draw(x, y, n) => Xyn(0xD, x, y, n)
    case DrawLarge(x, y) => Xyn(0xD, x, y, 0)
    case SkipKey(x) => Xkk(0xE, x, 0x9E)
    case SkipNotKey(x) => Xkk(0xE, x, 0xA1)
    case GetDelay(x) => Xkk(0xF, x, 0x07)
    case WaitKey(x) => Xkk(0xF, x, 0x0A)
    case SetDelay(x) => Xkk(0xF, x, 0x15)
    case SetSound(x) => Xkk(0xF, x, 0x18)
    case AddIndex(x) => Xkk(0xF, x, 0x1E)
    case FontSmall(x) => Xkk(0xF, x, 0x29)
    case FontLarge(x) => Xkk(0xF, x, 0x30)
    case Bcd(x) => Xkk(0xF, x, 0x33)
    case Store(x) => Xkk(0xF, x, 0x55)
    case Load(x) => Xkk(0xF, x, 0x65)
    case SaveFlags(x) => Xkk(0xF, x, 0x75)
    case LoadFlags(x) => Xkk(0xF, x, 0x85)
    case Nop => 0x0000
  }

  /** Dxy0 decodes as the 16x16 draw, so a Draw with height 0 has no word. */
  predicate Canonical(i: Instr) { i.Draw? ==> i.n != 0 }

  // Splitting a number into a high part and one base-16, base-256 or
  // base-4096 digit.
  lemma Split16(hi: nat, lo: nat)
    requires lo < 0x10
    ensures (hi * 0x10 + lo) / 0x10 == hi && (hi * 0x10 + lo) % 0x10 == lo
  {
  }

  lemma Split256(hi: nat, lo: nat)
    requires lo < 0x100
    ensures (hi * 0x100 + lo) / 0x100 == hi && (hi * 0x100 + lo) % 0x100 == lo
  {
  }

  lemma Split4096(hi: nat, lo: nat)
    requires lo < 0x1000
    ensures (hi * 0x1000 + lo) / 0x1000 == hi && (hi * 0x1000 + lo) % 0x1000 == lo
  {
  }

  lemma NnnFields(c: Nibble, nnn: Address)
    ensures Class(Nnn(c, nnn)) == c && NNN(Nnn(c, nnn)) == nnn
  {
    Split4096(c, nnn);
  }

  lemma XkkFields(c: Nibble, x: Nibble, kk: Byte)
    ensures var w := Xkk(c, x, kk);
      Class(w) == c && X(w) == x && KK(w) == kk && N(w) == kk % 0x10 && Y(w) == kk / 0x10
  {
    var w := Xkk(c, x, kk);
    var hi, lo := kk / 0x10, kk % 0x10;
    Split4096(c, x * 0x100 + kk);
    assert w == (c * 0x10 + x) * 0x100 + kk;
    Split256(c * 0x10 + x, kk);
    Split16(c, x);
    assert w == ((c * 0x10 + x) * 0x10 + hi) * 0x10 + lo;
    Split16((c * 0x10 + x) * 0x10 + hi, lo);
    Split16(c * 0x10 + x, hi);
  }

  lemma XynFields(c: Nibble, x: Nibble, y: Nibble, n: Nibble)
    ensures var w := Xyn(c, x, y, n);
      Class(w) == c && X(w) == x && Y(w) == y && N(w) == n && KK(w) == y * 0x10 + n
  {
    XkkFields(c, x, y * 0x10 + n);
    Split16(y, n);
  }

  lemma RoundTripSystem(i: Instr)
    requires i.Cls? || i.Ret? || i.ScrollRight? || i.ScrollLeft?
    ensures Decode(Encode(i)) == i
  {
  }

  lemma RoundTripScroll(i: Instr)
    requires i.ScrollDown? || i.ScrollUp?
    ensures Decode(Encode(i)) == i
  {
    match i
    case ScrollDown(n) => XynFields(0x0, 0x0, 0xC, n);
    case ScrollUp(n) => XynFields(0x0, 0x0, 0xB, n);
  }

  lemma RoundTripAddress(i: Instr)
    requires i.Jump? || i.Call? || i.LoadIndex? || i.JumpV0?
    ensures Decode(Encode(i)) == i
  {
    NnnFields(Class(Encode(i)), i.nnn);
  }

  lemma RoundTripImmediate(i: Instr)
    requires i.SkipEqImm? || i.SkipNeImm? || i.LoadImm? || i.AddImm? || i.Random?
    ensures Decode(Encode(i)) == i
  {
    XkkFields(Class(Encode(i)), i.x, i.kk);
  }

  lemma AluWord(x: Nibble, y: Nibble, n: Nibble)
    ensures var w := Xyn(0x8, x, y, n); Decode(w) == DecodeAlu(w) && X(w) == x && Y(w) == y && N(w) == n
  {
    XynFields(0x8, x, y, n);
  }

  lemma RoundTripLogic(i: Instr)
    requires i.Move? || i.Or? || i.And? || i.Xor?
    ensures Decode(Encode(i)) == i
  {
    match i
    case Move(x, y) => AluWord(x, y, 0x0);
    case Or(x, y) => AluWord(x, y, 0x1);
    case And(x, y) => AluWord(x, y, 0x2);
    case Xor(x, y) => AluWord(x, y, 0x3);
  }

  lemma RoundTripArithmetic(i: Instr)
    requires i.Add? || i.Sub? || i.Shr? || i.SubN? || i.Shl?
    ensures Decode(Encode(i)) == i
  {
    match i
    case Add(x, y) => AluWord(x, y, 0x4);
    case Sub(x, y) => AluWord(x, y, 0x5);
    case Shr(x, y) => AluWord(x, y, 0x6);
    case SubN(x, y) => AluWord(x, y, 0x7);
    case Shl(x, y) => AluWord(x, y, 0xE);
  }

  lemma RoundTripRegisterPair(i: Instr)
    requires i.SkipEqReg? || i.SkipNeReg?
    ensures Decode(Encode(i)) == i
  {
    XynFields(Class(Encode(i)), i.x, i.y, 0);
  }

  lemma RoundTripDraw(i: Instr)
    requires i.Draw? || i.DrawLarge?
    requires Canonical(i)
    ensures Decode(Encode(i)) == i
  {
    match i
    case Draw(x, y, n) => XynFields(0xD, x, y, n);
    case DrawLarge(x, y) => XynFields(0xD, x, y, 0);
  }

  lemma RoundTripKeys(i: Instr)
    requires i.SkipKey? || i.SkipNotKey?
    ensures Decode(Encode(i)) == i
  {
    var w := Encode(i);
    XkkFields(0xE, i.x, if i.SkipKey? then 0x9E else 0xA1);
    assert Class(w) == 0xE && X(w) == i.x;
    assert N(w) == if i.SkipKey? then 0xE else 0x1;
  }

  lemma MiscWord(x: Nibble, kk: Byte)
    ensures var w := Xkk(0xF, x, kk); Decode(w) == DecodeMisc(w) && X(w) == x && KK(w) == kk
  {
    XkkFields(0xF, x, kk);
  }

  lemma RoundTripReads(i: Instr)
    requires i.GetDelay? || i.WaitKey?
    ensures Decode(Encode(i)) == i
  {
    match i
    case GetDelay(x) => MiscWord(x, 0x07);
    case WaitKey(x) => MiscWord(x, 0x0A);
  }

  lemma RoundTripTimers(i: Instr)
    requires i.SetDelay? || i.SetSound?
    ensures Decode(Encode(i)) == i
  {
    match i
    case SetDelay(x) => MiscWord(x, 0x15);
    case SetSound(x) => MiscWord(x, 0x18);
  }

  lemma RoundTripIndex(i: Instr)
    requires i.AddIndex? || i.FontSmall? || i.FontLarge?
    ensures Decode(Encode(i)) == i
  {
    match i
    case AddIndex(x) => MiscWord(x, 0x1E);
    case FontSmall(x) => MiscWord(x, 0x29);
    case FontLarge(x) => MiscWord(x, 0x30);
  }

  lemma RoundTripMemory(i: Instr)
    requires i.Bcd? || i.Store? || i.Load?
    ensures Decode(Encode(i)) == i
  {
    match i
    case Bcd(x) => MiscWord(x, 0x33);
    case Store(x) => MiscWord(x, 0x55);
    case Load(x) => MiscWord(x, 0x65);
  }

  lemma RoundTripFlags(i: Instr)
    requires i.SaveFlags? || i.LoadFlags?
    ensures Decode(Encode(i)) == i
  {
    match i
    case SaveFlags(x) => MiscWord(x, 0x75);
    case LoadFlags(x) => MiscWord(x, 0x85);
  }

  /** Every instruction the decoder can produce is recovered from its
      canonical word. */
  lemma DecodeEncode(i: Instr)
    requires Canonical(i)
    ensures Decode(Encode(i)) == i
  {
    if i.Jump? || i.Call? || i.LoadIndex? || i.JumpV0? {
      RoundTripAddress(i);
    } else if i.SkipEqImm? || i.SkipNeImm? || i.LoadImm? || i.AddImm? || i.Random? {
      RoundTripImmediate(i);
    } else if i.Move? || i.Or? || i.And? || i.Xor? {
      RoundTripLogic(i);
    } else if i.Add? || i.Sub? || i.Shr? || i.SubN? || i.Shl? {
      RoundTripArithmetic(i);
    } else if i.SkipEqReg? || i.SkipNeReg? {
      RoundTripRegisterPair(i);
    } else if i.Draw? || i.DrawLarge? {
      RoundTripDraw(i);
    } else if i.SkipKey? || i.SkipNotKey? {
      RoundTripKeys(i);
    } else if i.Cls? || i.Ret? || i.ScrollRight? || i.ScrollLeft? {
      RoundTripSystem(i);
    } else if i.ScrollDown? || i.ScrollUp? {
      RoundTripScroll(i);
    } else if i.GetDelay? || i.WaitKey? {
      RoundTripReads(i);
    } else if i.SetDelay? || i.SetSound? {
      RoundTripTimers(i);
    } else if i.AddIndex? || i.FontSmall? || i.FontLarge? {
      RoundTripIndex(i);
    } else if i.Bcd? || i.Store? || i.Load? {
      RoundTripMemory(i);
    } else if i.SaveFlags? || i.LoadFlags? {
      RoundTripFlags(i);
    }
  }

  /** Exactly these words fall through the switch of `ParseOpcodes` without
      reaching a handler. */
  lemma DecodeNop(w: Word)
    ensures Decode(w) == Nop <==>
      (Class(w) == 0x0 && Y(w) != 0xB && Y(w) != 0xC &&
       KK(w) !in {0xE0, 0xEE, 0xFB, 0xFC, 0xFD, 0xFE, 0xFF}) ||
      (Class(w) == 0x8 && N(w) !in {0x0, 0x1, 0x2, 0x3, 0x4, 0x5, 0x6, 0x7, 0xE}) ||
      (Class(w) == 0xE && N(w) != 0x1 && N(w) != 0xE) ||
      (Class(w) == 0xF &&
       KK(w) !in {0x07, 0x0A, 0x15, 0x18, 0x1E, 0x29, 0x30, 0x33, 0x55, 0x65, 0x75, 0x85})
  {
  }
}
