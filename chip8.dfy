/** The base CHIP-8 revision of the interpreter (ChipEi/Chip8.cpp,
    ChipEi/Chip8.h): a 64x32 framebuffer, an 80-byte font, and instruction
    dispatch through tables of pointers to member functions. */
module Chip8 {
  import opened Opcodes
  import opened Core
  import opened Sprite
  import Cpu

  const VideoWidth: nat := 64
  const VideoHeight: nat := 32
  const VideoSize: nat := 2048
  const SpriteSize: nat := 8
  const FontsetSize: nat := 80
  /** The elements `fill_n(video, sizeof(video), 0)` writes in 00E0: the count
      is the array's size in bytes, four per 32-bit pixel. */
  const ClearWrites: nat := 4 * VideoSize

  /** The sixteen five-byte glyphs 0-F; the same bytes as the small font of
      the SuperChip revision. */
  const Fontset: seq<Byte> := Cpu.SmallFont

  datatype RawChip8 = RawChip8(core: CoreState, video: seq<Pixel>)

  type Chip8State = c: RawChip8 | |c.video| == VideoSize
    witness RawChip8(Blank, seq(2048, _ => 0))

  // ---------------------------------------------------------------------
  // The dispatch tables

  /** What a slot of a dispatch table holds: a null pointer, `OP_NULL`, one
      of the four sub-table dispatchers, or an instruction handler. */
  datatype Chip8Func =
    | Unset
    | OpNull
    | Table0 | Table8 | TableE | TableF
    | Op00E0 | Op00EE | Op1nnn | Op2nnn | Op3xkk | Op4xkk | Op5xy0 | Op6xkk | Op7xkk
    | Op8xy0 | Op8xy1 | Op8xy2 | Op8xy3 | Op8xy4 | Op8xy5 | Op8xy6 | Op8xy7 | Op8xyE
    | Op9xy0 | OpAnnn | OpBnnn | OpCxkk | OpDxyn | OpEx9E | OpExA1
    | OpFx07 | OpFx0A | OpFx15 | OpFx18 | OpFx1E | OpFx29 | OpFx33 | OpFx55 | OpFx65

  /** The initialiser `{&Chip8::OP_NULL}` of every table: slot 0 holds
      OP_NULL and the remaining slots are value-initialised to null. */
  function Initialised(n: nat): (t: seq<Chip8Func>)
    ensures |t| == n
    ensures forall k :: 0 < k < n ==> t[k] == Unset
  {
    seq(n, k => if k == 0 then OpNull else Unset)
  }

  /** `table` after `SetupFunctionPointerTable`: one slot per top nibble. */
  const MainTable: seq<Chip8Func> :=
    [Table0, Op1nnn, Op2nnn, Op3xkk, Op4xkk, Op5xy0, Op6xkk, Op7xkk,
     Table8, Op9xy0, OpAnnn, OpBnnn, OpCxkk, OpDxyn, TableE, TableF]

  /** `table0`, `table8` and `tableE` have 0xE + 1 = 15 slots; `tableF` has
      0x65 + 1 = 102. Only the slots `SetupFunctionPointerTable` assigns
      hold a handler. */
  const Table0Slots: seq<Chip8Func> := Initialised(15)[0x0 := Op00E0][0xE := Op00EE]

  const Table8Slots: seq<Chip8Func> :=
    Initialised(15)[0x0 := Op8xy0][0x1 := Op8xy1][0x2 := Op8xy2][0x3 := Op8xy3]
                   [0x4 := Op8xy4][0x5 := Op8xy5][0x6 := Op8xy6][0x7 := Op8xy7][0xE := Op8xyE]

  const TableESlots: seq<Chip8Func> := Initialised(15)[0x1 := OpExA1][0xE := OpEx9E]

  const TableFSlots: seq<Chip8Func> :=
    Initialised(0x66)[0x07 := OpFx07][0x0A := OpFx0A][0x15 := OpFx15][0x18 := OpFx18]
                     [0x1E := OpFx1E][0x29 := OpFx29][0x33 := OpFx33][0x55 := OpFx55][0x65 := OpFx65]

  /** Slot `k` of table `t`, or `None` when `k` is past its end. */
  function Entry(t: seq<Chip8Func>, k: nat): (r: Option<Chip8Func>)
    ensures r.Some? <==> k < |t|
    ensures r.Some? ==> r.value == t[k]
  {
    if k < |t| then Some(t[k]) else None
  }

  /** The slot `Cycle` ends up calling for the word `w`: `table` by the top
      nibble, then the sub-table by the low nibble (classes 0, 8 and E) or
      the low byte (class F). `None` is an index past the sub-table's end. */
  function Slot(w: Word): Option<Chip8Func> {
    var f := MainTable[Class(w)];
    if f.Table0? then Entry(Table0Slots, N(w))
    else if f.Table8? then Entry(Table8Slots, N(w))
    else if f.TableE? then Entry(TableESlots, N(w))
    else if f.TableF? then Entry(TableFSlots, KK(w))
    else Some(f)
  }

  /** A slot that runs code: neither null nor a sub-table dispatcher. */
  predicate Runnable(f: Chip8Func) {
    !(f.Unset? || f.Table0? || f.Table8? || f.TableE? || f.TableF?)
  }

  /** Calling the slot `w` selects is defined: it is inside its table and
      not null. */
  predicate Dispatchable(w: Word) {
    Slot(w).Some? && !Slot(w).value.Unset?
  }

  /** The instructions this revision has handlers for; OP_NULL is `Nop`. */
  predicate Handled(i: Instr) {
    IsShared(i) || i.Cls? || i.Shr? || i.Shl? || i.Draw? || i.Bcd? || i.Store? || i.Load? || i.Nop?
  }

  /** The instruction a handler carries out on the word `w`: the operand
      fields its body extracts from `opcode`. */
  function Bind(f: Chip8Func, w: Word): (i: Instr)
    requires Runnable(f)
    ensures Handled(i)
  {
    match f
    case OpNull => Nop
    case Op00E0 => Cls
    case Op00EE => Ret
    case Op1nnn => Jump(NNN(w))
    case Op2nnn => Call(NNN(w))
    case Op3xkk => SkipEqImm(X(w), KK(w))
    case Op4xkk => SkipNeImm(X(w), KK(w))
    case Op5xy0 => SkipEqReg(X(w), Y(w))
    case Op6xkk => LoadImm(X(w), KK(w))
    case Op7xkk => AddImm(X(w), KK(w))
    case Op8xy0 => Move(X(w), Y(w))
    case Op8xy1 => Or(X(w), Y(w))
    case Op8xy2 => And(X(w), Y(w))
    case Op8xy3 => Xor(X(w), Y(w))
    case Op8xy4 => Add(X(w), Y(w))
    case Op8xy5 => Sub(X(w), Y(w))
    case Op8xy6 => Shr(X(w), Y(w))
    case Op8xy7 => SubN(X(w), Y(w))
    case Op8xyE => Shl(X(w), Y(w))
    case Op9xy0 => SkipNeReg(X(w), Y(w))
    case OpAnnn => LoadIndex(NNN(w))
    case OpBnnn => JumpV0(NNN(w))
    case OpCxkk => Random(X(w), KK(w))
    case OpDxyn => Draw(X(w), Y(w), N(w))
    case OpEx9E => SkipKey(X(w))
    case OpExA1 => SkipNotKey(X(w))
    case OpFx07 => GetDelay(X(w))
    case OpFx0A => WaitKey(X(w))
    case OpFx15 => SetDelay(X(w))
    case OpFx18 => SetSound(X(w))
    case OpFx1E => AddIndex(X(w))
    case OpFx29 => FontSmall(X(w))
    case OpFx33 => Bcd(X(w))
    case OpFx55 => Store(X(w))
    case OpFx65 => Load(X(w))
  }

  /** The instruction the two-level table dispatch runs for `w`. */
  function Dispatched(w: Word): (i: Instr)
    requires Dispatchable(w)
    ensures Handled(i)
  {
    Bind(Slot(w).value, w)
  }

  // ---------------------------------------------------------------------
  // Start-up and program loading

  /** Memory after the constructor: the font at 0x50, zero elsewhere. */
  function FontMemory(): (m: seq<Byte>)
    ensures |m| == MemorySize
  {
    Copied(seq(MemorySize, _ => 0), FontsetStartAddress, Fontset)
  }

  const Initial: Chip8State := RawChip8(Blank.(pc := StartAddress, memory := FontMemory()), seq(2048, _ => 0))

  /** The copy loop of `LoadROM`; `None` stands for a file that failed to open. */
  function AfterLoadRom(s: Chip8State, image: Option<seq<Byte>>): Chip8State
    requires image.Some? ==> |image.value| <= MemorySize - StartAddress
  {
    match image
    case None => s
    case Some(bytes) => s.(core := s.core.(memory := Copied(s.core.memory, StartAddress, bytes)))
  }

  // ---------------------------------------------------------------------
  // The handlers of this revision

  /** Fx33: hundreds, tens and ones, each computed from the value itself. */
  function Digits(v: Byte): (d: seq<Byte>)
    ensures |d| == 3
  {
    [v / 100, (v / 10) % 10, v % 10]
  }

  function DigitsStored(s: CoreState, x: Nibble): CoreState
    requires s.index + 2 < MemorySize
  {
    var d := Digits(s.registers[x]);
    s.(memory := s.memory[s.index + 2 := d[2]][s.index + 1 := d[1]][s.index := d[0]])
  }

  /** Dxyn: the origin wraps to the 64x32 screen, the pixels do not. */
  function DrawLayout(s: Chip8State, x: Nibble, y: Nibble): Layout {
    Direct(s.core.registers[x] % VideoWidth, s.core.registers[y] % VideoHeight, VideoWidth)
  }

  /** The sprite rows read from memory[I..I+n]. */
  function SpriteRows(s: Chip8State, n: nat): seq<Byte>
    requires s.core.index + n <= MemorySize
  {
    s.core.memory[s.core.index..s.core.index + n]
  }

  function DrawGroups(s: Chip8State, x: Nibble, y: Nibble, n: Nibble): seq<Group>
    requires s.core.index + n <= MemorySize
  {
    SpriteGroups(DrawLayout(s, x, y), SpriteRows(s, n), SpriteSize)
  }

  /** What the handlers need to stay inside the C++ arrays. */
  predicate Defined(s: Chip8State, i: Instr) {
    if i.Cls? then ClearWrites <= VideoSize
    else if i.Draw? then
      s.core.index + i.n <= MemorySize &&
      LandsInside(DrawLayout(s, i.x, i.y), SpriteRows(s, i.n), SpriteSize, VideoSize)
    else if i.Bcd? then s.core.index + 2 < MemorySize
    else if i.Store? || i.Load? then TransferFits(s.core, i.x)
    else CoreDefined(s.core, i)
  }

  /** Dxyn: VF is reset, then set to 1 by any collision. */
  function DrawSprite(s: Chip8State, x: Nibble, y: Nibble, n: Nibble): Chip8State
    requires Defined(s, Draw(x, y, n))
  {
    var gs := DrawGroups(s, x, y, n);
    LandsInsideFits(DrawLayout(s, x, y), SpriteRows(s, n), SpriteSize, VideoSize);
    s.(video := Painted(s.video, gs),
       core := s.core.(registers := s.core.registers[VF := Flag(AnyHit(s.video, gs))]))
  }

  /** The effect of the handler the tables select for `i`. 8xy6 and 8xyE
      always shift Vx; Fx55 and Fx65 leave I alone. */
  function Exec(s: Chip8State, i: Instr, rnd: Byte): Chip8State
    requires Handled(i) && Defined(s, i)
  {
    if i.Cls? then assert false; s
    else if i.Shr? then s.(core := s.core.(registers := Cpu.ShiftedRight(s.core.registers, i.x, i.x)))
    else if i.Shl? then s.(core := s.core.(registers := Cpu.ShiftedLeft(s.core.registers, i.x, i.x)))
    else if i.Draw? then DrawSprite(s, i.x, i.y, i.n)
    else if i.Bcd? then s.(core := DigitsStored(s.core, i.x))
    else if i.Store? then s.(core := AfterStore(s.core, i.x))
    else if i.Load? then s.(core := AfterLoad(s.core, i.x))
    else if i.Nop? then s
    else s.(core := CoreExec(s.core, i, rnd))
  }

  /** `pc += 2` right after the fetch. */
  function Advance(s: Chip8State): Chip8State {
    s.(core := s.core.(pc := (s.core.pc + 2) % 0x10000))
  }

  predicate CycleDefined(s: Chip8State) {
    CanFetch(s.core) && Dispatchable(Fetch(s.core)) && Defined(Advance(s), Dispatched(Fetch(s.core)))
  }

  /** `Cycle`: fetch the word at pc, advance pc, call through the tables,
      then tick the timers. */
  function CycleSpec(s: Chip8State, rnd: Byte): Chip8State
    requires CycleDefined(s)
  {
    var t := Exec(Advance(s), Dispatched(Fetch(s.core)), rnd);
    t.(core := AfterTick(t.core))
  }

  // ---------------------------------------------------------------------
  // Properties of the dispatch

  /** The sub-table index runs past the end of `table0`, `table8` or
      `tableE` exactly for a low nibble of F, and past `tableF` exactly for a
      low byte above 0x65. */
  lemma IndexPastTable(w: Word)
    ensures Slot(w).None? <==>
      ((Class(w) == 0x0 || Class(w) == 0x8 || Class(w) == 0xE) && N(w) == 0xF) ||
      (Class(w) == 0xF && KK(w) > 0x65)
  {
  }

  /** The words whose call through the tables is defined. */
  lemma DispatchableWords(w: Word)
    ensures Dispatchable(w) <==>
      if Class(w) == 0x0 then N(w) == 0x0 || N(w) == 0xE
      else if Class(w) == 0x8 then N(w) <= 0x7 || N(w) == 0xE
      else if Class(w) == 0xE then N(w) <= 0x1 || N(w) == 0xE
      else if Class(w) == 0xF then
        KK(w) in {0x00, 0x07, 0x0A, 0x15, 0x18, 0x1E, 0x29, 0x33, 0x55, 0x65}
      else true
  {
    if Class(w) == 0xF && KK(w) < 0x66 {
      assert Slot(w) == Some(TableFSlots[KK(w)]);
    }
  }

  /** Words of the SuperChip revision the tables cannot run: 00FF and Fx75
      index past the end of `table0` and `tableF`; 00FD and Fx30 reach a
      null slot. */
  lemma SuperChipWordsUndefined()
    ensures Slot(0x00FF).None? && Slot(0xF075).None?
    ensures Slot(0x00FD) == Some(Unset) && Slot(0xF030) == Some(Unset)
  {
  }

  /** Compared with CPU.cpp's switch: class 0 is decided by the low nibble
      alone, so every 0x0nn0 word clears the screen and every 0x0nnE word
      returns; class D always runs Dxyn, even for n = 0; every other
      dispatchable word runs the instruction `Decode` gives it. */
  lemma DispatchMatchesDecode(w: Word)
    requires Dispatchable(w)
    ensures Class(w) == 0x0 ==> Dispatched(w) == if N(w) == 0 then Cls else Ret
    ensures Class(w) == 0xD ==> Dispatched(w) == Draw(X(w), Y(w), N(w))
    ensures Class(w) != 0x0 && Class(w) != 0xD ==> Dispatched(w) == Decode(w)
  {
    var c := Class(w);
    if c == 0x0 {
      DispatchSystem(w);
    } else if c == 0x8 {
      DispatchAlu(w);
    } else if c == 0xE {
      DispatchKeys(w);
    } else if c == 0xF {
      DispatchMisc(w);
    } else {
      DispatchDirect(w);
    }
  }

  lemma DispatchSystem(w: Word)
    requires Dispatchable(w) && Class(w) == 0x0
    ensures Dispatched(w) == if N(w) == 0 then Cls else Ret
  {
    assert Slot(w) == Some(Table0Slots[N(w)]);
  }

  lemma DispatchAlu(w: Word)
    requires Dispatchable(w) && Class(w) == 0x8
    ensures Dispatched(w) == Decode(w)
  {
    assert Slot(w) == Some(Table8Slots[N(w)]);
    if N(w) < 0x4 {
      DispatchAluLow(w);
    } else {
      DispatchAluHigh(w);
    }
  }

  lemma DispatchAluLow(w: Word)
    requires Class(w) == 0x8 && N(w) < 0x4
    ensures Dispatchable(w) && Dispatched(w) == Decode(w)
  {
    assert Slot(w) == Some(Table8Slots[N(w)]);
    assert Decode(w) == DecodeAlu(w);
  }

  lemma DispatchAluHigh(w: Word)
    requires Dispatchable(w) && Class(w) == 0x8 && N(w) >= 0x4
    ensures Dispatched(w) == Decode(w)
  {
    assert Slot(w) == Some(Table8Slots[N(w)]);
    assert Decode(w) == DecodeAlu(w);
  }

  lemma DispatchKeys(w: Word)
    requires Dispatchable(w) && Class(w) == 0xE
    ensures Dispatched(w) == Decode(w)
  {
    assert Slot(w) == Some(TableESlots[N(w)]);
  }

  lemma DispatchMisc(w: Word)
    requires Dispatchable(w) && Class(w) == 0xF
    ensures Dispatched(w) == Decode(w)
  {
    assert Slot(w) == Some(TableFSlots[KK(w)]);
    assert Decode(w) == DecodeMisc(w);
  }

  /** The classes `table` sends straight to a handler. */
  lemma DispatchDirect(w: Word)
    requires Class(w) != 0x0 && Class(w) != 0x8 && Class(w) != 0xE && Class(w) != 0xF
    ensures Dispatchable(w)
    ensures Class(w) == 0xD ==> Dispatched(w) == Draw(X(w), Y(w), N(w))
    ensures Class(w) != 0xD ==> Dispatched(w) == Decode(w)
  {
    if Class(w) < 0x8 {
      DispatchDirectLow(w);
    } else {
      DispatchDirectHigh(w);
    }
  }

  lemma DispatchDirectLow(w: Word)
    requires 0x1 <= Class(w) <= 0x7
    ensures Dispatchable(w) && Dispatched(w) == Decode(w)
  {
    assert Slot(w) == Some(MainTable[Class(w)]);
  }

  lemma DispatchDirectHigh(w: Word)
    requires 0x9 <= Class(w) <= 0xD
    ensures Dispatchable(w)
    ensures Class(w) == 0xD ==> Dispatched(w) == Draw(X(w), Y(w), N(w))
    ensures Class(w) != 0xD ==> Dispatched(w) == Decode(w)
  {
    assert Slot(w) == Some(MainTable[Class(w)]);
  }

  // ---------------------------------------------------------------------
  // Properties of start-up and the handlers

  /** The 80-byte font sits at 0x50..0x9F, below the program area, so
      loading a program never overwrites it. */
  lemma LoadRomKeepsFont(image: Option<seq<Byte>>)
    requires image.Some? ==> |image.value| <= MemorySize - StartAddress
    ensures FontsetStartAddress + FontsetSize <= StartAddress
    ensures var m := AfterLoadRom(Initial, image).core.memory;
      m[FontsetStartAddress..FontsetStartAddress + FontsetSize] == Fontset &&
      (image.Some? ==> m[StartAddress..StartAddress + |image.value|] == image.value)
    ensures AfterLoadRom(Initial, image).core.pc == StartAddress
  {
    var m := AfterLoadRom(Initial, image).core.memory;
    assert |Fontset| == FontsetSize;
    forall k | 0 <= k < FontsetSize
      ensures m[FontsetStartAddress + k] == Fontset[k]
    {
      assert FontMemory()[FontsetStartAddress + k] == Fontset[k];
    }
    assert m[FontsetStartAddress..FontsetStartAddress + FontsetSize] == Fontset;
    if image.Some? {
      var b := image.value;
      forall k | 0 <= k < |b|
        ensures m[StartAddress + k] == b[k]
      {
      }
      assert m[StartAddress..StartAddress + |b|] == b;
    }
  }

  /** The two ways of computing the decimal digits of Fx33 agree on every
      byte, and the digits spell the value. */
  lemma DigitsAgree(v: Byte)
    ensures Digits(v) == Cpu.BcdDigits(v)
    ensures Digits(v)[0] * 100 + Digits(v)[1] * 10 + Digits(v)[2] == v
    ensures Digits(v)[1] < 10 && Digits(v)[2] < 10
  {
    var h := v / 100;
    var t := v / 10;
    assert t / 10 == h;
  }

  /** The handlers of this revision are the SuperChip ones with every quirk
      switch off: on the same core state they compute the same core state. */
  lemma RegisterOpsMatchCpu(s: Chip8State, c: Cpu.CpuState, i: Instr, rnd: Byte)
    requires s.core == c.core && c.experimental == Cpu.Experimental(false, false, false)
    requires IsShared(i) || i.Shr? || i.Shl? || i.Bcd? || i.Store? || i.Load?
    requires Defined(s, i)
    ensures Cpu.Defined(c, i)
    ensures Exec(s, i, rnd).core == Cpu.Exec(c, i, rnd).core
  {
    if i.Bcd? {
      BcdMatchesCpu(s, c, i.x, rnd);
    } else if IsShared(i) {
      SharedOpsMatchCpu(s, c, i, rnd);
    } else if i.Shr? || i.Shl? {
      ShiftsMatchCpu(s, c, i, rnd);
    } else {
      TransfersMatchCpu(s, c, i, rnd);
    }
  }

  lemma SharedOpsMatchCpu(s: Chip8State, c: Cpu.CpuState, i: Instr, rnd: Byte)
    requires s.core == c.core && IsShared(i) && Defined(s, i)
    ensures Cpu.Defined(c, i)
    ensures Exec(s, i, rnd).core == Cpu.Exec(c, i, rnd).core
  {
    Cpu.ExecShared(c, i, rnd);
    ExecShared(s, i, rnd);
  }

  lemma ShiftsMatchCpu(s: Chip8State, c: Cpu.CpuState, i: Instr, rnd: Byte)
    requires s.core == c.core && c.experimental == Cpu.Experimental(false, false, false)
    requires i.Shr? || i.Shl?
    ensures Cpu.Defined(c, i)
    ensures Exec(s, i, rnd).core == Cpu.Exec(c, i, rnd).core
  {
  }

  lemma BcdMatchesCpu(s: Chip8State, c: Cpu.CpuState, x: Nibble, rnd: Byte)
    requires s.core == c.core && s.core.index + 2 < MemorySize
    ensures Cpu.Defined(c, Bcd(x))
    ensures Exec(s, Bcd(x), rnd).core == Cpu.Exec(c, Bcd(x), rnd).core
  {
    DigitsAgree(s.core.registers[x]);
  }

  lemma TransfersMatchCpu(s: Chip8State, c: Cpu.CpuState, i: Instr, rnd: Byte)
    requires s.core == c.core && c.experimental == Cpu.Experimental(false, false, false)
    requires (i.Store? || i.Load?) && TransferFits(s.core, i.x)
    ensures Cpu.Defined(c, i)
    ensures Exec(s, i, rnd).core == Cpu.Exec(c, i, rnd).core
  {
  }

  /** 8xy6 and 8xyE shift Vx in place, VF taking the bit shifted out
      (when x is not F). */
  lemma ShiftsMoveVx(s: Chip8State, x: Nibble, y: Nibble, rnd: Byte)
    requires x != VF
    ensures var r := s.core.registers;
      var right := Exec(s, Shr(x, y), rnd).core.registers;
      var left := Exec(s, Shl(x, y), rnd).core.registers;
      right[x] == r[x] / 2 && right[VF] == r[x] % 2 &&
      left[x] == (r[x] as int * 2) % 256 && left[VF] == r[x] / 128 &&
      (forall k :: 0 <= k < RegisterCount && k != x && k != VF ==> right[k] == r[k] && left[k] == r[k])
  {
    Cpu.ShiftRightEffect(s.core.registers, x, x);
    Cpu.ShiftLeftEffect(s.core.registers, x, x);
  }

  /** 8xy4 leaves VF at 0: the sum is already 8 bits wide when it is
      compared with 255. */
  lemma AddNeverCarries(s: Chip8State, x: Nibble, y: Nibble, rnd: Byte)
    requires x != VF
    ensures Exec(s, Add(x, y), rnd).core.registers[VF] == 0
    ensures Exec(s, Add(x, y), rnd).core.registers[x] == (s.core.registers[x] as int + s.core.registers[y]) % 256
  {
    AddCarryIsLost(s.core.registers, x, y);
  }

  /** Fx55 and Fx65 move V0..Vx to and from memory[I..I+x] and keep I. */
  lemma TransfersKeepIndex(s: Chip8State, x: Nibble, rnd: Byte)
    requires TransferFits(s.core, x)
    ensures Exec(s, Store(x), rnd).core.index == s.core.index
    ensures Exec(s, Load(x), rnd).core.index == s.core.index
    ensures Exec(s, Store(x), rnd).core.memory[s.core.index..s.core.index + x + 1] == s.core.registers[..x + 1]
    ensures Exec(s, Load(x), rnd).core.registers[..x + 1] == s.core.memory[s.core.index..s.core.index + x + 1]
  {
    var m := Exec(s, Store(x), rnd).core.memory;
    var r := Exec(s, Load(x), rnd).core.registers;
    forall k | 0 <= k <= x
      ensures m[s.core.index + k] == s.core.registers[k] && r[k] == s.core.memory[s.core.index + k]
    {
    }
    assert m[s.core.index..s.core.index + x + 1] == s.core.registers[..x + 1];
    assert r[..x + 1] == s.core.memory[s.core.index..s.core.index + x + 1];
  }

  /** Dxyn sets VF exactly when some lit sprite pixel lands on a lit cell. */
  lemma DrawFlag(s: Chip8State, x: Nibble, y: Nibble, n: Nibble)
    requires Defined(s, Draw(x, y, n))
    ensures DrawSprite(s, x, y, n).core.registers[VF] == 1 <==>
      LandsOnLit(s.video, DrawLayout(s, x, y), SpriteRows(s, n), SpriteSize)
  {
    LandsInsideFits(DrawLayout(s, x, y), SpriteRows(s, n), SpriteSize, VideoSize);
    AnyHitDirect(s.video, s.core.registers[x] % VideoWidth, s.core.registers[y] % VideoHeight, VideoWidth,
      SpriteRows(s, n), SpriteSize);
  }

  /** Dxyn leaves Vx and Vy (when neither is VF), I and memory alone, so the
      same instruction again restores the screen. */
  lemma DrawTwice(s: Chip8State, x: Nibble, y: Nibble, n: Nibble)
    requires Defined(s, Draw(x, y, n)) && x != VF && y != VF
    ensures Defined(DrawSprite(s, x, y, n), Draw(x, y, n))
    ensures DrawSprite(DrawSprite(s, x, y, n), x, y, n).video == s.video
  {
    var t := DrawSprite(s, x, y, n);
    assert DrawLayout(t, x, y) == DrawLayout(s, x, y);
    assert SpriteRows(t, n) == SpriteRows(s, n);
    LandsInsideFits(DrawLayout(s, x, y), SpriteRows(s, n), SpriteSize, VideoSize);
    PaintTwice(s.video, DrawGroups(s, x, y, n));
  }

  /** Only the origin wraps: a sprite at row 31 whose second row lights its
      first pixel indexes past the 2048 cells of `video`. */
  lemma BottomEdgeOverflows(s: Chip8State, x: Nibble, y: Nibble)
    requires s.core.registers[y] % VideoHeight == 31
    requires s.core.index + 2 <= MemorySize && Lit(s.core.memory[s.core.index + 1], 0)
    ensures !Defined(s, Draw(x, y, 2))
  {
    var l := DrawLayout(s, x, y);
    var rows := SpriteRows(s, 2);
    assert rows[1] == s.core.memory[s.core.index + 1];
    assert !Fits(Place(l, 1, 0), VideoSize);
  }

  /** 00E0 writes 6144 elements past the end of `video`, so a cycle over
      any word the tables send to it (every 0x0nn0) is undefined. */
  lemma ClearOverruns(s: Chip8State)
    requires CanFetch(s.core) && Dispatchable(Fetch(s.core))
    requires Class(Fetch(s.core)) == 0x0 && N(Fetch(s.core)) == 0
    ensures ClearWrites - VideoSize == 6144
    ensures Dispatched(Fetch(s.core)) == Cls && !CycleDefined(s)
  {
    DispatchSystem(Fetch(s.core));
  }

  // ---------------------------------------------------------------------
  // Properties of the cycle

  /** Outside class 0 (whose aliases CPU.cpp does not share), a cycle over an
      instruction common to both revisions changes the core state as the
      SuperChip revision's cycle does. */
  lemma CycleMatchesCpu(s: Chip8State, c: Cpu.CpuState, rnd: Byte)
    requires s.core == c.core && CycleDefined(s)
    requires Class(Fetch(s.core)) != 0x0 && IsShared(Dispatched(Fetch(s.core)))
    ensures Cpu.CycleDefined(c)
    ensures CycleSpec(s, rnd).core == Cpu.CycleSpec(c, rnd).core
  {
    var w := Fetch(s.core);
    var i := Dispatched(w);
    DispatchMatchesDecode(w);
    assert Decode(Fetch(c.core)) == i;
    CycleShared(s, rnd);
    Cpu.ExecShared(Cpu.Advance(c), i, rnd);
    assert Cpu.Advance(c).core == Advance(s).core;
    assert Cpu.CycleSpec(c, rnd) == Cpu.Step(c, i, rnd);
  }

  /** A cycle over a shared instruction is the shared core step. */
  lemma CycleShared(s: Chip8State, rnd: Byte)
    requires CycleDefined(s) && IsShared(Dispatched(Fetch(s.core)))
    ensures CycleSpec(s, rnd).core == AfterTick(CoreExec(Advance(s).core, Dispatched(Fetch(s.core)), rnd))
  {
    ExecShared(Advance(s), Dispatched(Fetch(s.core)), rnd);
  }

  // ---------------------------------------------------------------------
  // The `Chip8` object

  /** `Chip8`: the shared state lives in `core`; this revision adds the
      64x32 framebuffer and the five dispatch tables. The opcode fields the
      handlers extract from the `opcode` member are passed as arguments. */
  class Machine {
    const core: Processor
    const video: array<Pixel>
    const table: array<Chip8Func>
    const table0: array<Chip8Func>
    const table8: array<Chip8Func>
    const tableE: array<Chip8Func>
    const tableF: array<Chip8Func>

    ghost predicate Valid()
      reads table, table0, table8, tableE, tableF
    {
      core.Valid() && video.Length == VideoSize &&
      table[..] == MainTable && table0[..] == Table0Slots && table8[..] == Table8Slots &&
      tableE[..] == TableESlots && tableF[..] == TableFSlots
    }

    ghost function State(): Chip8State
      requires core.Valid() && video.Length == VideoSize
      reads this, core, core.registers, core.memory, core.stack, core.keypad, video
    {
      RawChip8(core.State(), video[..])
    }

    /** `Chip8()`: pc at the program start, the font copied to 0x50, the
        tables filled in. */
    constructor ()
      ensures Valid() && State() == Initial
      ensures fresh(core) && fresh(core.registers) && fresh(core.memory) && fresh(core.stack) && fresh(core.keypad)
      ensures fresh(video)
    {
      var p := NewCore();
      var v := NewScreen();
      core, video := p, v;
      var main := NewTable(16);
      var t0 := NewTable(15);
      var t8 := NewTable(15);
      var tE := NewTable(15);
      var tF := NewTable(0x66);
      table, table0, table8, tableE, tableF := main, t0, t8, tE, tF;
      new;
      SetupFunctionPointerTable();
    }

    /** The processor state of the constructor: pc at the program start and
        the font copied in. */
    static method NewCore() returns (p: Processor)
      ensures p.Valid() && p.State() == Initial.core
      ensures fresh(p) && fresh(p.registers) && fresh(p.memory) && fresh(p.stack) && fresh(p.keypad)
    {
      p := new Processor();
      p.pc := StartAddress;
      assert |Fontset| == FontsetSize;
      p.CopyIn(FontsetStartAddress, Fontset);
    }

    /** The cleared display buffer. */
    static method NewScreen() returns (v: array<Pixel>)
      ensures fresh(v) && v[..] == Initial.video
    {
      v := new Pixel[VideoSize](_ => 0);
    }

    /** A table of `n` slots with its initialiser. */
    static method NewTable(n: nat) returns (t: array<Chip8Func>)
      ensures fresh(t) && t[..] == Initialised(n)
    {
      t := new Chip8Func[n](k => if k == 0 then OpNull else Unset);
    }

    /** Fills in the slots of the five tables, starting from their
        initialisers; one helper per table. */
    method SetupFunctionPointerTable()
      requires table.Length == 16 && table0.Length == 15 && table8.Length == 15
      requires tableE.Length == 15 && tableF.Length == 0x66
      requires table != table0 && table != table8 && table != tableE && table != tableF
      requires table0 != table8 && table0 != tableE && table0 != tableF
      requires table8 != tableE && table8 != tableF && tableE != tableF
      requires table0[..] == Initialised(15) && table8[..] == Initialised(15)
      requires tableE[..] == Initialised(15) && tableF[..] == Initialised(0x66)
      modifies table, table0, table8, tableE, tableF
      ensures table[..] == MainTable && table0[..] == Table0Slots && table8[..] == Table8Slots
      ensures tableE[..] == TableESlots && tableF[..] == TableFSlots
    {
      SetupMain();
      SetupTable0();
      SetupTable8();
      SetupTableE();
      SetupTableF();
    }

    method SetupMain()
      requires table.Length == 16
      modifies table
      ensures table[..] == MainTable
    {
      table[0x0] := Table0;
      table[0x1] := Chip8Func.Op1nnn;
      table[0x2] := Chip8Func.Op2nnn;
      table[0x3] := Chip8Func.Op3xkk;
      table[0x4] := Chip8Func.Op4xkk;
      table[0x5] := Chip8Func.Op5xy0;
      table[0x6] := Chip8Func.Op6xkk;
      table[0x7] := Chip8Func.Op7xkk;
      table[0x8] := Table8;
      table[0x9] := Chip8Func.Op9xy0;
      table[0xA] := Chip8Func.OpAnnn;
      table[0xB] := Chip8Func.OpBnnn;
      table[0xC] := Chip8Func.OpCxkk;
      table[0xD] := Chip8Func.OpDxyn;
      table[0xE] := TableE;
      table[0xF] := TableF;
    }

    /** Slots 0 and E; the other thirteen stay null. */
    method SetupTable0()
      requires table0[..] == Initialised(15)
      modifies table0
      ensures table0[..] == Table0Slots
    {
      table0[0x0] := Chip8Func.Op00E0;
      table0[0xE] := Chip8Func.Op00EE;
    }

    /** Slots 0-7 and E; slots 8-D stay null. */
    method SetupTable8()
      requires table8[..] == Initialised(15)
      modifies table8
      ensures table8[..] == Table8Slots
    {
      table8[0x0] := Chip8Func.Op8xy0;
      table8[0x1] := Chip8Func.Op8xy1;
      table8[0x2] := Chip8Func.Op8xy2;
      table8[0x3] := Chip8Func.Op8xy3;
      table8[0x4] := Chip8Func.Op8xy4;
      table8[0x5] := Chip8Func.Op8xy5;
      table8[0x6] := Chip8Func.Op8xy6;
      table8[0x7] := Chip8Func.Op8xy7;
      table8[0xE] := Chip8Func.Op8xyE;
    }

    /** Slots 1 and E; slot 0 keeps OP_NULL. */
    method SetupTableE()
      requires tableE[..] == Initialised(15)
      modifies tableE
      ensures tableE[..] == TableESlots
    {
      tableE[0x1] := Chip8Func.OpExA1;
      tableE[0xE] := Chip8Func.OpEx9E;
    }

    /** Nine slots; slot 0 keeps OP_NULL. */
    method SetupTableF()
      requires tableF[..] == Initialised(0x66)
      modifies tableF
      ensures tableF[..] == TableFSlots
    {
      tableF[0x07] := Chip8Func.OpFx07;
      tableF[0x0A] := Chip8Func.OpFx0A;
      tableF[0x15] := Chip8Func.OpFx15;
      tableF[0x18] := Chip8Func.OpFx18;
      tableF[0x1E] := Chip8Func.OpFx1E;
      tableF[0x29] := Chip8Func.OpFx29;
      tableF[0x33] := Chip8Func.OpFx33;
      tableF[0x55] := Chip8Func.OpFx55;
      tableF[0x65] := Chip8Func.OpFx65;
    }

    /** The copy part of `LoadROM`; `None` is a file that failed to open. */
    method LoadRom(image: Option<seq<Byte>>)
      requires Valid() && (image.Some? ==> |image.value| <= MemorySize - StartAddress)
      modifies core.memory
      ensures State() == AfterLoadRom(old(State()), image)
    {
      if image.Some? {
        core.CopyIn(StartAddress, image.value);
      }
    }

    /** 00E0 on the cells of `video`: every one goes dark. The writes that
        `fill_n` makes past the end are not modelled (see `ClearOverruns`). */
    method Op00E0()
      requires Valid()
      modifies video
      ensures State() == old(State()).(video := seq(VideoSize, _ => 0))
    {
      var k := 0;
      while k < VideoSize
        invariant 0 <= k <= VideoSize
        invariant forall a :: 0 <= a < k ==> video[a] == 0
      {
        video[k] := 0;
        k := k + 1;
      }
      assert video[..] == seq(VideoSize, _ => 0);
    }

    /** 8xy6: VF gets the low bit of Vx, then Vx is halved. */
    method Op8xy6(x: Nibble)
      requires Valid()
      modifies core.registers
      ensures State() == old(State()).(core := old(State()).core.(registers := Cpu.ShiftedRight(old(core.registers[..]), x, x)))
    {
      core.registers[VF] := core.registers[x] % 2;
      core.registers[x] := core.registers[x] / 2;
    }

    /** 8xyE: VF gets the high bit of Vx, then Vx is doubled in 8 bits. */
    method Op8xyE(x: Nibble)
      requires Valid()
      modifies core.registers
      ensures State() == old(State()).(core := old(State()).core.(registers := Cpu.ShiftedLeft(old(core.registers[..]), x, x)))
    {
      core.registers[VF] := core.registers[x] / 128;
      core.registers[x] := (core.registers[x] as int * 2) % 256;
    }

    /** Fx33: hundreds at I, tens at I+1, ones at I+2. */
    method OpFx33(x: Nibble)
      requires Valid() && core.index + 2 < MemorySize
      modifies core.memory
      ensures State() == Exec(old(State()), Bcd(x), 0)
    {
      var value := core.registers[x];
      core.memory[core.index + 2] := value % 10;
      core.memory[core.index + 1] := (value / 10) % 10;
      core.memory[core.index] := value / 100;
    }

    /** Fx55: V0..Vx to memory from I on; I is not moved. */
    method OpFx55(x: Nibble)
      requires Valid() && TransferFits(core.State(), x)
      modifies core.memory
      ensures State() == Exec(old(State()), Store(x), 0)
    {
      core.StoreRegisters(x);
    }

    /** Fx65: memory from I on to V0..Vx; I is not moved. */
    method OpFx65(x: Nibble)
      requires Valid() && TransferFits(core.State(), x)
      modifies core.registers
      ensures State() == Exec(old(State()), Load(x), 0)
    {
      core.LoadRegisters(x);
    }

    /** One lit sprite pixel: the collision is read before the cell is
        flipped with `^=`. */
    method DrawCell(a: int) returns (hit: bool)
      requires Valid() && 0 <= a < VideoSize
      modifies video
      ensures hit == Hit(old(video[..]), Single(a))
      ensures video[..] == ToggleGroup(old(video[..]), Single(a))
    {
      hit := video[a] == On;
      video[a] := Toggle(video[a]);
    }

    /** Dxyn: VF is reset, then each lit pixel of the n rows at I flips its
        cell, setting VF on a collision. */
    method OpDxyn(x: Nibble, y: Nibble, n: Nibble)
      requires Valid() && Defined(State(), Draw(x, y, n))
      modifies core.registers, video
      ensures State() == Exec(old(State()), Draw(x, y, n), 0)
    {
      ghost var s := State();
      ghost var r0 := core.registers[..];
      var xPos := core.registers[x] % VideoWidth;
      var yPos := core.registers[y] % VideoHeight;
      ghost var rows := SpriteRows(s, n);
      assert DrawLayout(s, x, y) == Direct(xPos, yPos, VideoWidth);
      core.registers[VF] := 0;
      DrawRows(xPos, yPos, n, rows, s.video, r0);
    }

    /** Dxyn's drawing so far: the screen is v with the groups gs toggled, VF
        is 1 exactly when one of them collided, the other registers are as
        in r0. */
    ghost predicate Drawn(v: seq<Pixel>, gs: seq<Group>, r0: seq<Byte>)
      reads video, core.registers
    {
      |v| == VideoSize && |r0| == RegisterCount && AllFit(gs, VideoSize) &&
      video[..] == Painted(v, gs) && core.registers[..] == r0[VF := Flag(AnyHit(v, gs))]
    }

    /** The row loop of Dxyn: rows[r] is read from memory[I + r]. */
    method DrawRows(xPos: int, yPos: int, n: nat, ghost rows: seq<Byte>, ghost v: seq<Pixel>, ghost r0: seq<Byte>)
      requires Valid() && |v| == VideoSize && |r0| == RegisterCount && |rows| == n
      requires core.index + n <= MemorySize && core.memory[core.index..core.index + n] == rows
      requires LandsInside(Direct(xPos, yPos, VideoWidth), rows, SpriteSize, VideoSize)
      requires video[..] == v && core.registers[..] == r0[VF := 0]
      modifies core.registers, video
      ensures Drawn(v, SpriteGroups(Direct(xPos, yPos, VideoWidth), rows, SpriteSize), r0)
    {
      ghost var l := Direct(xPos, yPos, VideoWidth);
      assert SpriteGroups(l, rows[..0], SpriteSize) == [];
      var row := 0;
      while row < n
        invariant 0 <= row <= n
        invariant core.memory[core.index..core.index + n] == rows
        invariant Drawn(v, SpriteGroups(l, rows[..row], SpriteSize), r0)
      {
        DrawRowAt(xPos, yPos, row, rows, v, r0);
        row := row + 1;
      }
      assert rows[..n] == rows;
    }

    /** Row `row` read from memory and drawn: the drawn prefix grows by one row. */
    method DrawRowAt(xPos: int, yPos: int, row: nat, ghost rows: seq<Byte>, ghost v: seq<Pixel>, ghost r0: seq<Byte>)
      requires Valid() && row < |rows|
      requires core.index + |rows| <= MemorySize && core.memory[core.index..core.index + |rows|] == rows
      requires LandsInside(Direct(xPos, yPos, VideoWidth), rows, SpriteSize, VideoSize)
      requires Drawn(v, SpriteGroups(Direct(xPos, yPos, VideoWidth), rows[..row], SpriteSize), r0)
      modifies core.registers, video
      ensures Drawn(v, SpriteGroups(Direct(xPos, yPos, VideoWidth), rows[..row + 1], SpriteSize), r0)
    {
      ghost var l := Direct(xPos, yPos, VideoWidth);
      var spriteByte := core.memory[core.index + row];
      assert spriteByte == rows[row];
      LandsInsideRow(l, rows, SpriteSize, VideoSize, row);
      DrawRow(xPos, yPos, row, spriteByte, v, SpriteGroups(l, rows[..row], SpriteSize), r0);
      SpriteGroupsSnoc(l, rows, SpriteSize, row);
    }

    /** One sprite row: the inner loop over the 8 columns. */
    method DrawRow(xPos: int, yPos: int, row: nat, spriteByte: Byte,
                   ghost v: seq<Pixel>, ghost done: seq<Group>, ghost r0: seq<Byte>)
      requires Valid() && Drawn(v, done, r0)
      requires forall c :: 0 <= c < SpriteSize && Lit(spriteByte, c) ==>
        Fits(Place(Direct(xPos, yPos, VideoWidth), row, c), VideoSize)
      modifies core.registers, video
      ensures Drawn(v, done + RowGroups(Direct(xPos, yPos, VideoWidth), spriteByte, row, SpriteSize), r0)
    {
      ghost var l := Direct(xPos, yPos, VideoWidth);
      assert done + RowGroups(l, spriteByte, row, 0) == done;
      var col := 0;
      while col < SpriteSize
        invariant 0 <= col <= SpriteSize
        invariant Drawn(v, done + RowGroups(l, spriteByte, row, col), r0)
      {
        ghost var gs := done + RowGroups(l, spriteByte, row, col);
        LitIsMaskTest(spriteByte, col);
        if BitAnd(spriteByte, ColumnMask(col)) != 0 {
          DrawPixel(xPos, yPos, row, col, v, gs, r0);
          assert done + RowGroups(l, spriteByte, row, col + 1) == gs + [Place(l, row, col)];
        } else {
          assert done + RowGroups(l, spriteByte, row, col + 1) == gs;
        }
        col := col + 1;
      }
    }

    /** One lit pixel at `(yPos + row) * 64 + xPos + col`: its cell is
        flipped, and VF set on a collision. */
    method DrawPixel(xPos: int, yPos: int, row: nat, col: nat,
                     ghost v: seq<Pixel>, ghost gs: seq<Group>, ghost r0: seq<Byte>)
      requires Valid() && Drawn(v, gs, r0)
      requires Fits(Place(Direct(xPos, yPos, VideoWidth), row, col), VideoSize)
      modifies core.registers, video
      ensures Drawn(v, gs + [Place(Direct(xPos, yPos, VideoWidth), row, col)], r0)
    {
      var a := (yPos + row) * VideoWidth + (xPos + col);
      PaintedSnoc(v, gs, Single(a));
      var hit := DrawCell(a);
      if hit {
        core.registers[VF] := 1;
      }
    }

    /** `Cycle`: fetch the big-endian word at pc, move pc past it, call the
        handler the tables select, then tick the timers. `rnd` is the byte
        Cxkk would draw. */
    method Cycle(rnd: Byte)
      requires Valid() && CycleDefined(State())
      modifies core, core.registers, core.memory, core.stack, video
      ensures State() == CycleSpec(old(State()), rnd)
    {
      ghost var s := State();
      var opcode := core.memory[core.pc] as int * 0x100 + core.memory[core.pc + 1];
      assert opcode == Fetch(s.core);
      core.pc := (core.pc + 2) % 0x10000;
      assert State() == Advance(s);
      Dispatch(opcode, rnd);
      assert State() == Exec(Advance(s), Dispatched(Fetch(s.core)), rnd);
      core.TickTimers();
    }

    /** The call through `table` by the top nibble and, for classes 0, 8, E
        and F, the second call `Table0`, `Table8`, `TableE` and `TableF`
        make through their tables. */
    method Dispatch(opcode: Word, rnd: Byte)
      requires Valid() && Dispatchable(opcode) && Defined(State(), Dispatched(opcode))
      modifies core, core.registers, core.memory, core.stack, video
      ensures State() == Exec(old(State()), Dispatched(opcode), rnd)
    {
      var f := table[opcode / 0x1000];
      if f.Table0? {
        f := table0[opcode % 0x10];
      } else if f.Table8? {
        f := table8[opcode % 0x10];
      } else if f.TableE? {
        f := tableE[opcode % 0x10];
      } else if f.TableF? {
        f := tableF[opcode % 0x100];
      }
      assert f == Slot(opcode).value;
      Execute(Bind(f, opcode), rnd);
    }

    /** The handler of one instruction; OP_NULL does nothing. */
    method Execute(i: Instr, rnd: Byte)
      requires Valid() && Handled(i) && Defined(State(), i)
      modifies core, core.registers, core.memory, core.stack, video
      ensures State() == Exec(old(State()), i, rnd)
    {
      if IsShared(i) {
        ghost var s := State();
        core.Execute(i, rnd);
        ExecShared(s, i, rnd);
      } else if i.Cls? {
        assert false;
      } else if i.Shr? {
        Op8xy6(i.x);
      } else if i.Shl? {
        Op8xyE(i.x);
      } else if i.Draw? {
        OpDxyn(i.x, i.y, i.n);
      } else if i.Bcd? {
        OpFx33(i.x);
      } else if i.Store? {
        OpFx55(i.x);
      } else if i.Load? {
        OpFx65(i.x);
      }
    }
  }

  /** A handler common to both revisions, run by Chip8.cpp. */
  lemma ExecShared(s: Chip8State, i: Instr, rnd: Byte)
    requires IsShared(i) && CoreDefined(s.core, i)
    ensures Handled(i) && Defined(s, i) && Exec(s, i, rnd) == s.(core := CoreExec(s.core, i, rnd))
  {
  }
}
