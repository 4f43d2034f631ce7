/** The SuperChip-8 revision of the interpreter (ChipEi/CPU.cpp, ChipEi/CPU.h):
    a 128x64 framebuffer, the quirk switches of `Experimental`, the 8 HP-48
    user flags, and the handlers this revision adds or changes. */
module Cpu {
  import opened Opcodes
  import opened Core
  import opened Sprite

  const VideoWidth: nat := 128
  const VideoHeight: nat := 64
  const VideoSize: nat := 8192
  /** The rows the column-clearing loop of 00Bn and 00Cn runs over, twice
      the framebuffer's height. */
  const ClearRows: nat := 128
  const UserRegisterCount: nat := 8
  const SpriteSize: nat := 8
  const FontsetSize: nat := 240
  /** Where the ten-byte glyphs of the large font begin. */
  const LargeFontStartAddress: Word := 0x50 + 80

  /** Sixteen five-byte glyphs, 0-F. */
  const SmallFont: seq<Byte> :=
    [0xF0, 0x90, 0x90, 0x90, 0xF0] +
    [0x20, 0x60, 0x20, 0x20, 0x70] +
    [0xF0, 0x10, 0xF0, 0x80, 0xF0] +
    [0xF0, 0x10, 0xF0, 0x10, 0xF0] +
    [0x90, 0x90, 0xF0, 0x10, 0x10] +
    [0xF0, 0x80, 0xF0, 0x10, 0xF0] +
    [0xF0, 0x80, 0xF0, 0x90, 0xF0] +
    [0xF0, 0x10, 0x20, 0x40, 0x40] +
    [0xF0, 0x90, 0xF0, 0x90, 0xF0] +
    [0xF0, 0x90, 0xF0, 0x10, 0xF0] +
    [0xF0, 0x90, 0xF0, 0x90, 0x90] +
    [0xE0, 0x90, 0xE0, 0x90, 0xE0] +
    [0xF0, 0x80, 0x80, 0x80, 0xF0] +
    [0xE0, 0x90, 0x90, 0x90, 0xE0] +
    [0xF0, 0x80, 0xF0, 0x80, 0xF0] +
    [0xF0, 0x80, 0xF0, 0x80, 0x80]

  /** Ten ten-byte glyphs, 0-9, for extended mode. */
  const LargeFont: seq<Byte> :=
    [0x3C, 0x7E, 0xE7, 0xC3, 0xC3, 0xC3, 0xC3, 0xE7, 0x7E, 0x3C] +
    [0x18, 0x38, 0x58, 0x18, 0x18, 0x18, 0x18, 0x18, 0x18, 0x3C] +
    [0x3E, 0x7F, 0xC3, 0x06, 0x0C, 0x18, 0x30, 0x60, 0xFF, 0xFF] +
    [0x3C, 0x7E, 0xC3, 0x03, 0x0E, 0x0E, 0x03, 0xC3, 0x7E, 0x3C] +
    [0x06, 0x0E, 0x1E, 0x36, 0x66, 0xC6, 0xFF, 0xFF, 0x06, 0x06] +
    [0xFF, 0xFF, 0xC0, 0xC0, 0xFC, 0xFE, 0x03, 0xC3, 0x7E, 0x3C] +
    [0x3E, 0x7C, 0xC0, 0xC0, 0xFC, 0xFE, 0xC3, 0xC3, 0x7E, 0x3C] +
    [0xFF, 0xFF, 0x03, 0x06, 0x0C, 0x18, 0x30, 0x60, 0x60, 0x60] +
    [0x3C, 0x7E, 0xC3, 0xC3, 0x7E, 0x7E, 0xC3, 0xC3, 0x7E, 0x3C] +
    [0x3C, 0x7E, 0xC3, 0xC3, 0x7F, 0x3F, 0x03, 0x03, 0x3E, 0x7C]

  /** The 240-byte font array: its initialiser lists the small and then the
      large glyphs; the remaining 60 bytes are zero. */
  const Fontset: seq<Byte> := SmallFont + LargeFont + seq(60, _ => 0)

  /** The quirk switches; all start off. */
  datatype Experimental = Experimental(dottedRendering: bool, loadFlag: bool, shift: bool)

  datatype RawCpu = RawCpu(
    core: CoreState,
    userRegisters: seq<Byte>,
    video: seq<Pixel>,       // the buffer `current_video` points to
    extendedMode: bool,      // 128x64 addressing instead of doubled 64x32
    quit: bool,
    romLoaded: bool,
    experimental: Experimental)

  type CpuState = c: RawCpu | |c.userRegisters| == UserRegisterCount && |c.video| == VideoSize
    witness RawCpu(Blank, seq(8, _ => 0), seq(8192, _ => 0), false, false, false, Experimental(false, false, false))

  // ---------------------------------------------------------------------
  // Start-up and program loading

  /** Memory after the constructor: the font at 0x50, zero elsewhere. */
  function FontMemory(): (m: seq<Byte>)
    ensures |m| == MemorySize
  {
    Copied(seq(MemorySize, _ => 0), FontsetStartAddress, Fontset)
  }

  const Initial: CpuState := RawCpu(
    Blank.(pc := StartAddress, memory := FontMemory()),
    seq(8, _ => 0), seq(8192, _ => 0), false, false, false, Experimental(false, false, false))

  /** The copy loop of `LoadROM`; `None` stands for a file that failed to open. */
  function AfterLoadRom(s: CpuState, image: Option<seq<Byte>>): CpuState
    requires image.Some? ==> |image.value| <= MemorySize - StartAddress
  {
    match image
    case None => s
    case Some(bytes) =>
      s.(core := s.core.(memory := Copied(s.core.memory, StartAddress, bytes)), romLoaded := true)
  }

  // ---------------------------------------------------------------------
  // The handlers of this revision

  /** 00E0: `memset` is given the size of the pointer `current_video`, eight
      bytes on a 64-bit host, so only the first two cells are cleared. */
  function Cleared(v: seq<Pixel>): (r: seq<Pixel>)
    requires |v| == VideoSize
    ensures |r| == VideoSize
  {
    v[0 := 0][1 := 0]
  }

  /** 00Bn: rows 0..n take rows n..2n, then the first n columns are cleared
      (of the rows inside the framebuffer). */
  function ScrolledUp(v: seq<Pixel>, n: Nibble): (r: seq<Pixel>)
    requires |v| == VideoSize
    ensures |r| == VideoSize
  {
    seq(VideoSize, a requires 0 <= a < VideoSize =>
      if a % VideoWidth < n then 0
      else if a < (n + 1) * VideoWidth then v[a + n * VideoWidth] else v[a])
  }

  /** 00Cn: rows n..63 take rows 0..63-n, then the first n columns are
      cleared (of the rows inside the framebuffer). */
  function ScrolledDown(v: seq<Pixel>, n: Nibble): (r: seq<Pixel>)
    requires |v| == VideoSize
    ensures |r| == VideoSize
  {
    seq(VideoSize, a requires 0 <= a < VideoSize =>
      if a % VideoWidth < n then 0
      else if a >= n * VideoWidth then v[a - n * VideoWidth] else v[a])
  }

  /** The register 8xy6 and 8xyE shift: Vy under the shift quirk, else Vx. */
  function ShiftSource(s: CpuState, x: Nibble, y: Nibble): Nibble {
    if s.experimental.shift then y else x
  }

  /** 8xy6: VF gets the low bit of the source, then Vx the source shifted
      right, read after VF is written. */
  function ShiftedRight(r: seq<Byte>, x: Nibble, c: Nibble): seq<Byte>
    requires |r| == RegisterCount
  {
    var flagged := r[VF := r[c] % 2];
    flagged[x := flagged[c] / 2]
  }

  /** 8xyE: VF gets the high bit of the source, then Vx the source shifted
      left and truncated to 8 bits. */
  function ShiftedLeft(r: seq<Byte>, x: Nibble, c: Nibble): seq<Byte>
    requires |r| == RegisterCount
  {
    var flagged := r[VF := r[c] / 128];
    flagged[x := (flagged[c] as int * 2) % 256]
  }

  /** Fx33 by successive division: ones, then tens, then hundreds. */
  function BcdDigits(v: Byte): (d: seq<Byte>)
    ensures |d| == 3
  {
    var ones := v % 10;
    var v1 := v / 10;
    var tens := v1 % 10;
    var v2 := v1 / 10;
    [v2 % 10, tens, ones]
  }

  function BcdStored(s: CoreState, x: Nibble): CoreState
    requires s.index + 2 < MemorySize
  {
    var d := BcdDigits(s.registers[x]);
    s.(memory := s.memory[s.index + 2 := d[2]][s.index + 1 := d[1]][s.index := d[0]])
  }

  /** The load quirk of Fx55 and Fx65: I moves past the registers moved. */
  function IndexAfterTransfer(s: CoreState, x: Nibble, loadFlag: bool): CoreState {
    if loadFlag then s.(index := (s.index + x + 1) % 0x10000) else s
  }

  /** Fx75: V0..Vx to the user flags at I..I+x. */
  function FlagsSaved(u: seq<Byte>, r: seq<Byte>, i: int, x: Nibble): (u': seq<Byte>)
    requires |u| == UserRegisterCount && |r| == RegisterCount && 0 <= i && i + x < UserRegisterCount
    ensures |u'| == UserRegisterCount
  {
    seq(UserRegisterCount, k requires 0 <= k < UserRegisterCount => if i <= k <= i + x then r[k - i] else u[k])
  }

  /** Fx85: the user flags at I..I+x to V0..Vx. */
  function FlagsLoaded(r: seq<Byte>, u: seq<Byte>, i: int, x: Nibble): (r': seq<Byte>)
    requires |u| == UserRegisterCount && |r| == RegisterCount && 0 <= i && i + x < UserRegisterCount
    ensures |r'| == RegisterCount
  {
    seq(RegisterCount, k requires 0 <= k < RegisterCount => if k <= x then u[i + k] else r[k])
  }

  /** Dxyn multiplies by 2 outside extended mode. */
  function Scale(extended: bool): int { if extended then 1 else 2 }

  /** Where Dxyn puts its pixels: the origin scaled and wrapped, 2x2 blocks
      outside extended mode or under the dotted-rendering quirk. */
  function DrawLayout(s: CpuState, x: Nibble, y: Nibble): Layout {
    var k := Scale(s.extendedMode);
    Scaled((s.core.registers[x] * k) % VideoWidth, (s.core.registers[y] * k) % VideoHeight, k,
           !s.extendedMode || s.experimental.dottedRendering)
  }

  /** Where Dxy0 puts its pixels: the origin wrapped, no scaling, no wrap. */
  function LargeLayout(s: CpuState, x: Nibble, y: Nibble): Layout {
    Direct(s.core.registers[x] % VideoWidth, s.core.registers[y] % VideoHeight, VideoWidth)
  }

  /** The sprite rows read from memory[I..I+n]. */
  function SpriteRows(s: CpuState, n: nat): seq<Byte>
    requires s.core.index + n <= MemorySize
  {
    s.core.memory[s.core.index..s.core.index + n]
  }

  function DrawGroups(s: CpuState, x: Nibble, y: Nibble, n: Nibble): seq<Group>
    requires s.core.index + n <= MemorySize
  {
    SpriteGroups(DrawLayout(s, x, y), SpriteRows(s, n), SpriteSize)
  }

  /** Dxy0 reads 16 rows and scans 16 columns. */
  function LargeGroups(s: CpuState, x: Nibble, y: Nibble): seq<Group>
    requires s.core.index + 16 <= MemorySize
  {
    SpriteGroups(LargeLayout(s, x, y), SpriteRows(s, 16), 2 * SpriteSize)
  }

  /** What the handlers need to stay inside the C++ arrays. */
  predicate Defined(s: CpuState, i: Instr) {
    if i.ScrollUp? || i.ScrollDown? then i.n == 0 || ClearRows <= VideoHeight
    else if i.Draw? then
      s.core.index + i.n <= MemorySize &&
      LandsInside(DrawLayout(s, i.x, i.y), SpriteRows(s, i.n), SpriteSize, VideoSize)
    else if i.DrawLarge? then
      s.extendedMode ==>
        s.core.index + 16 <= MemorySize &&
        LandsInside(LargeLayout(s, i.x, i.y), SpriteRows(s, 16), 2 * SpriteSize, VideoSize)
    else if i.Bcd? then s.core.index + 2 < MemorySize
    else if i.Store? || i.Load? then TransferFits(s.core, i.x)
    else if i.SaveFlags? || i.LoadFlags? then s.core.index + i.x < UserRegisterCount
    else CoreDefined(s.core, i)
  }

  /** Dxyn: VF is reset, then each lit pixel toggles its cells and assigns VF. */
  function DrawSprite(s: CpuState, x: Nibble, y: Nibble, n: Nibble): CpuState
    requires Defined(s, Draw(x, y, n))
  {
    var gs := DrawGroups(s, x, y, n);
    LandsInsideFits(DrawLayout(s, x, y), SpriteRows(s, n), SpriteSize, VideoSize);
    s.(video := Painted(s.video, gs),
       core := s.core.(registers := s.core.registers[VF := LastHit(s.video, gs)]))
  }

  /** Dxy0 in extended mode: VF is reset, then set by any collision. */
  function DrawLargeSprite(s: CpuState, x: Nibble, y: Nibble): CpuState
    requires s.extendedMode && Defined(s, DrawLarge(x, y))
  {
    var gs := LargeGroups(s, x, y);
    LandsInsideFits(LargeLayout(s, x, y), SpriteRows(s, 16), 2 * SpriteSize, VideoSize);
    s.(video := Painted(s.video, gs),
       core := s.core.(registers := s.core.registers[VF := Flag(AnyHit(s.video, gs))]))
  }

  /** The effect of the handler `ParseOpcodes` selects for `i`. */
  function Exec(s: CpuState, i: Instr, rnd: Byte): CpuState
    requires Defined(s, i)
  {
    if i.Cls? then s.(video := Cleared(s.video))
    else if i.ScrollDown? then s.(video := ScrolledDown(s.video, i.n))
    else if i.ScrollUp? then s.(video := ScrolledUp(s.video, i.n))
    else if i.Exit? then s.(quit := true)
    else if i.LowRes? then s.(extendedMode := false)
    else if i.HighRes? then s.(extendedMode := true)
    else if i.Shr? then
      s.(core := s.core.(registers := ShiftedRight(s.core.registers, i.x, ShiftSource(s, i.x, i.y))))
    else if i.Shl? then
      s.(core := s.core.(registers := ShiftedLeft(s.core.registers, i.x, ShiftSource(s, i.x, i.y))))
    else if i.Draw? then DrawSprite(s, i.x, i.y, i.n)
    else if i.DrawLarge? then (if s.extendedMode then DrawLargeSprite(s, i.x, i.y) else s)
    else if i.FontLarge? then
      s.(core := s.core.(index := FontsetStartAddress + 10 * s.core.registers[i.x] as int))
    else if i.Bcd? then s.(core := BcdStored(s.core, i.x))
    else if i.Store? then
      s.(core := IndexAfterTransfer(AfterStore(s.core, i.x), i.x, s.experimental.loadFlag))
    else if i.Load? then
      s.(core := IndexAfterTransfer(AfterLoad(s.core, i.x), i.x, s.experimental.loadFlag))
    else if i.SaveFlags? then
      s.(userRegisters := FlagsSaved(s.userRegisters, s.core.registers, s.core.index, i.x))
    else if i.LoadFlags? then
      s.(core := s.core.(registers := FlagsLoaded(s.core.registers, s.userRegisters, s.core.index, i.x)))
    else if IsShared(i) then s.(core := CoreExec(s.core, i, rnd))
    else s
  }

  /** `pc += 2` right after the fetch. */
  function Advance(s: CpuState): CpuState {
    s.(core := s.core.(pc := (s.core.pc + 2) % 0x10000))
  }

  predicate CycleDefined(s: CpuState) {
    CanFetch(s.core) && Defined(Advance(s), Decode(Fetch(s.core)))
  }

  /** One cycle over the instruction `i`: pc is advanced past it before it
      executes, and the timers tick after. */
  function Step(s: CpuState, i: Instr, rnd: Byte): CpuState
    requires Defined(Advance(s), i)
  {
    var t := Exec(Advance(s), i, rnd);
    t.(core := AfterTick(t.core))
  }

  /** `Cycle`: fetch the word at pc, decode it, and step over it. */
  function CycleSpec(s: CpuState, rnd: Byte): CpuState
    requires CycleDefined(s)
  {
    Step(s, Decode(Fetch(s.core)), rnd)
  }

  // ---------------------------------------------------------------------
  // Properties of start-up and loading

  /** The font sits in memory from 0x50, entirely below the program area,
      so loading a program never overwrites it. */
  lemma LoadRomKeepsFont(image: Option<seq<Byte>>)
    requires image.Some? ==> |image.value| <= MemorySize - StartAddress
    ensures var m := AfterLoadRom(Initial, image).core.memory;
      m[FontsetStartAddress..FontsetStartAddress + FontsetSize] == Fontset &&
      (image.Some? ==> m[StartAddress..StartAddress + |image.value|] == image.value)
    ensures AfterLoadRom(Initial, image).core.pc == StartAddress
    ensures AfterLoadRom(Initial, image).romLoaded <==> image.Some?
  {
    var m := AfterLoadRom(Initial, image).core.memory;
    assert |Fontset| == FontsetSize;
    forall k | 0 <= k < FontsetSize
      ensures m[FontsetStartAddress + k] == Fontset[k]
    {
      assert FontMemory()[FontsetStartAddress + k] == Fontset[k];
    }
    assert m[FontsetStartAddress..FontsetStartAddress + FontsetSize] == Fontset;
    if image.Some? {
      var b := image.value;
      forall k | 0 <= k < |b|
        ensures m[StartAddress + k] == b[k]
      {
      }
      assert m[StartAddress..StartAddress + |b|] == b;
    }
  }

  // ---------------------------------------------------------------------
  // Properties of the handlers

  /** 00E0 clears the first two cells and leaves every other cell alone. */
  lemma ClearTouchesTwoCells(v: seq<Pixel>)
    requires |v| == VideoSize
    ensures Cleared(v)[0] == 0 && Cleared(v)[1] == 0 && Cleared(v)[2..] == v[2..]
  {
  }

  /** 00Bn by rows and columns: columns below n go dark, rows up to n show
      the row n further down, later rows are kept. */
  lemma ScrollUpCell(v: seq<Pixel>, n: Nibble, row: nat, col: nat)
    requires |v| == VideoSize && row < VideoHeight && col < VideoWidth
    ensures ScrolledUp(v, n)[row * VideoWidth + col] ==
      if col < n then 0
      else if row <= n then v[(row + n) * VideoWidth + col]
      else v[row * VideoWidth + col]
  {
    var a := row * VideoWidth + col;
    assert a % VideoWidth == col && a / VideoWidth == row;
    assert a < (n + 1) * VideoWidth <==> row <= n;
    MulSucc(row, VideoWidth);
    assert a + n * VideoWidth == (row + n) * VideoWidth + col;
  }

  /** 00Cn by rows and columns: columns below n go dark, rows from n on show
      the row n further up, earlier rows are kept. */
  lemma ScrollDownCell(v: seq<Pixel>, n: Nibble, row: nat, col: nat)
    requires |v| == VideoSize && row < VideoHeight && col < VideoWidth
    ensures ScrolledDown(v, n)[row * VideoWidth + col] ==
      if col < n then 0
      else if row >= n then v[(row - n) * VideoWidth + col]
      else v[row * VideoWidth + col]
  {
    var a := row * VideoWidth + col;
    assert a % VideoWidth == col;
    assert a >= n * VideoWidth <==> row >= n;
    assert a - n * VideoWidth == (row - n) * VideoWidth + col;
  }

  /** The column-clearing loop of 00Bn and 00Cn runs over 128 rows of the
      64-row framebuffer: for n > 0 its first write in row 64 is already at
      index 8192, past the last cell, so every scroll by n > 0 is undefined. */
  lemma ScrollOverruns(s: CpuState, n: Nibble)
    requires n > 0
    ensures VideoHeight < ClearRows && VideoHeight * VideoWidth == VideoSize
    ensures !Defined(s, ScrollUp(n)) && !Defined(s, ScrollDown(n))
  {
  }

  /** Scrolling by zero lines changes nothing. */
  lemma ScrollByZero(v: seq<Pixel>)
    requires |v| == VideoSize
    ensures ScrolledUp(v, 0) == v && ScrolledDown(v, 0) == v
  {
  }

  /** 8xy6 shifts the source register c right into Vx and the bit shifted
      out into VF, so no bit is lost; the other registers are kept. */
  lemma ShiftRightEffect(r: seq<Byte>, x: Nibble, c: Nibble)
    requires |r| == RegisterCount && x != VF
    ensures var r' := ShiftedRight(r, x, c);
      r'[VF] == r[c] % 2 &&
      (c != VF ==> r'[x] == r[c] / 2 && 2 * r'[x] + r'[VF] == r[c]) &&
      forall k :: 0 <= k < RegisterCount && k != x && k != VF ==> r'[k] == r[k]
  {
  }

  /** 8xyE shifts the source register c left into Vx, truncated to 8 bits,
      and the bit shifted out into VF, so no bit is lost; the other registers
      are kept. */
  lemma ShiftLeftEffect(r: seq<Byte>, x: Nibble, c: Nibble)
    requires |r| == RegisterCount && x != VF
    ensures var r' := ShiftedLeft(r, x, c);
      r'[VF] == r[c] / 128 &&
      (c != VF ==> r'[x] == (2 * r[c] as int) % 256 && r'[x] / 2 + 128 * r'[VF] == r[c]) &&
      forall k :: 0 <= k < RegisterCount && k != x && k != VF ==> r'[k] == r[k]
  {
  }

  /** The source of both shifts is Vx unless the shift quirk is on. */
  lemma ShiftSourceQuirk(s: CpuState, x: Nibble, y: Nibble)
    ensures Exec(s, Shr(x, y), 0).core.registers ==
      ShiftedRight(s.core.registers, x, if s.experimental.shift then y else x)
    ensures Exec(s, Shl(x, y), 0).core.registers ==
      ShiftedLeft(s.core.registers, x, if s.experimental.shift then y else x)
  {
  }

  /** With the shift quirk and y = F, the source is read after the flag is
      written: 8xF6 always leaves Vx = 0, and 8xFE leaves Vx = 2 * (VF / 128),
      so the shifted value keeps only the old top bit. */
  lemma ShiftFromFlag(r: seq<Byte>, x: Nibble)
    requires |r| == RegisterCount
    ensures ShiftedRight(r, x, VF)[x] == 0
    ensures ShiftedLeft(r, x, VF)[x] == 2 * (r[VF] / 128)
  {
  }

  /** With Vx = VF the shifted value overwrites the flag. */
  lemma ShiftIntoFlag(r: seq<Byte>, c: Nibble)
    requires |r| == RegisterCount && c != VF
    ensures ShiftedRight(r, VF, c)[VF] == r[c] / 2
    ensures ShiftedLeft(r, VF, c)[VF] == (2 * r[c] as int) % 256
  {
  }

  /** Fx33's digits are decimal digits and spell the value back. */
  lemma BcdRoundTrip(v: Byte)
    ensures var d := BcdDigits(v);
      d[0] < 10 && d[1] < 10 && d[2] < 10 && 100 * d[0] + 10 * d[1] + d[2] == v
  {
    var d := BcdDigits(v);
    assert d[0] == v / 100;
    assert d[1] == (v / 10) % 10;
  }

  lemma BcdExamples()
    ensures BcdDigits(255) == [2, 5, 5] && BcdDigits(7) == [0, 0, 7] && BcdDigits(100) == [1, 0, 0]
  {
  }

  /** Fx33 writes the hundreds, tens and ones of Vx at I, I+1 and I+2 and
      touches nothing else. */
  lemma BcdEffect(c: CoreState, x: Nibble)
    requires c.index + 2 < MemorySize
    ensures var t := BcdStored(c, x);
      t.memory[c.index..c.index + 3] == BcdDigits(c.registers[x]) &&
      (forall a :: 0 <= a < MemorySize && !(c.index <= a < c.index + 3) ==> t.memory[a] == c.memory[a]) &&
      t.registers == c.registers && t.index == c.index && t.pc == c.pc
  {
  }

  /** Fx55 and Fx65 move I past the transferred registers exactly when the
      load quirk is on. */
  lemma TransferIndex(s: CpuState, x: Nibble)
    requires TransferFits(s.core, x)
    ensures Exec(s, Store(x), 0).core.index ==
      if s.experimental.loadFlag then (s.core.index + x + 1) % 0x10000 else s.core.index
    ensures Exec(s, Load(x), 0).core.index ==
      if s.experimental.loadFlag then (s.core.index + x + 1) % 0x10000 else s.core.index
  {
  }

  /** Without the load quirk, Fx65 after Fx55 gives back the registers. */
  lemma StoreThenLoadRestores(s: CpuState, x: Nibble)
    requires TransferFits(s.core, x) && !s.experimental.loadFlag
    ensures Defined(Exec(s, Store(x), 0), Load(x))
    ensures Exec(Exec(s, Store(x), 0), Load(x), 0).core.registers == s.core.registers
  {
    var t := Exec(s, Store(x), 0);
    ExecStore(s, x);
    StoreThenLoad(s.core, x);
    ExecLoad(t, x);
  }

  lemma ExecDraw(s: CpuState, x: Nibble, y: Nibble, n: Nibble)
    requires Defined(s, Draw(x, y, n))
    ensures Exec(s, Draw(x, y, n), 0) == DrawSprite(s, x, y, n)
  {
  }

  lemma ExecDrawLarge(s: CpuState, x: Nibble, y: Nibble)
    requires Defined(s, DrawLarge(x, y))
    ensures Exec(s, DrawLarge(x, y), 0) == if s.extendedMode then DrawLargeSprite(s, x, y) else s
  {
  }

  lemma ExecStore(s: CpuState, x: Nibble)
    requires TransferFits(s.core, x)
    ensures Exec(s, Store(x), 0) == s.(core := IndexAfterTransfer(AfterStore(s.core, x), x, s.experimental.loadFlag))
  {
  }

  lemma ExecLoad(s: CpuState, x: Nibble)
    requires TransferFits(s.core, x)
    ensures Exec(s, Load(x), 0) == s.(core := IndexAfterTransfer(AfterLoad(s.core, x), x, s.experimental.loadFlag))
  {
  }

  /** With the load quirk, Fx65 after Fx55 reads the bytes just past the
      ones stored. */
  lemma StoreThenLoadMovesOn(c: CoreState, x: Nibble)
    requires TransferFits(c, x) && c.index + 2 * x + 1 < MemorySize
    ensures var t := IndexAfterTransfer(AfterStore(c, x), x, true);
      TransferFits(t, x) &&
      forall k :: 0 <= k <= x ==> AfterLoad(t, x).registers[k] == c.memory[c.index + x + 1 + k]
  {
    var t := IndexAfterTransfer(AfterStore(c, x), x, true);
    assert t.index == c.index + x + 1;
    StoreThenLoad(c, x);
    LoadEffect(t, x);
  }

  /** Fx85 after Fx75 gives back the registers. */
  lemma FlagsRoundTrip(u: seq<Byte>, r: seq<Byte>, i: int, x: Nibble)
    requires |u| == UserRegisterCount && |r| == RegisterCount && 0 <= i && i + x < UserRegisterCount
    ensures FlagsLoaded(r, FlagsSaved(u, r, i, x), i, x) == r
  {
    var r' := FlagsLoaded(r, FlagsSaved(u, r, i, x), i, x);
    forall k | 0 <= k < RegisterCount
      ensures r'[k] == r[k]
    {
      if k <= x {
        assert FlagsSaved(u, r, i, x)[i + k] == r[k];
      }
    }
  }

  /** Fx75 and Fx85 touch the user flags at I..I+x and V0..Vx only. */
  lemma FlagsFrame(u: seq<Byte>, r: seq<Byte>, i: int, x: Nibble)
    requires |u| == UserRegisterCount && |r| == RegisterCount && 0 <= i && i + x < UserRegisterCount
    ensures forall k :: 0 <= k < UserRegisterCount && !(i <= k <= i + x) ==> FlagsSaved(u, r, i, x)[k] == u[k]
    ensures forall k :: x < k < RegisterCount ==> FlagsLoaded(r, u, i, x)[k] == r[k]
  {
  }

  /** Fx30 steps by ten bytes from the start of the font, not from the large
      glyphs 80 bytes further on: for digits below 8 it lands inside the
      small glyphs, and for 0 it reads the small glyph. */
  lemma LargeFontOffset(s: CpuState, x: Nibble)
    requires s.core.registers[x] < 10
    ensures var i := Exec(s, FontLarge(x), 0).core.index;
      i + 80 == LargeFontStartAddress + 10 * s.core.registers[x] &&
      (s.core.registers[x] < 8 ==> i < LargeFontStartAddress)
    ensures Fontset[0..10] != Fontset[80..90]
  {
    assert |SmallFont| == 80 && |LargeFont| == 100;
    assert Fontset[0..10][0] == SmallFont[0] == 0xF0;
    assert Fontset[80..90][0] == LargeFont[0] == 0x3C;
  }

  // ---------------------------------------------------------------------
  // Properties of drawing

  /** Dxyn leaves Vx and Vy (when neither is VF), I and memory alone, so the
      same instruction again draws the same pixels and restores the screen. */
  lemma DrawTwice(s: CpuState, x: Nibble, y: Nibble, n: Nibble)
    requires Defined(s, Draw(x, y, n)) && x != VF && y != VF
    ensures Defined(DrawSprite(s, x, y, n), Draw(x, y, n))
    ensures DrawSprite(DrawSprite(s, x, y, n), x, y, n).video == s.video
  {
    var t := DrawSprite(s, x, y, n);
    assert DrawLayout(t, x, y) == DrawLayout(s, x, y);
    assert SpriteRows(t, n) == SpriteRows(s, n);
    LandsInsideFits(DrawLayout(s, x, y), SpriteRows(s, n), SpriteSize, VideoSize);
    PaintTwice(s.video, DrawGroups(s, x, y, n));
  }

  /** The same for Dxy0 in extended mode. */
  lemma DrawLargeTwice(s: CpuState, x: Nibble, y: Nibble)
    requires s.extendedMode && Defined(s, DrawLarge(x, y)) && x != VF && y != VF
    ensures Defined(DrawLargeSprite(s, x, y), DrawLarge(x, y))
    ensures DrawLargeSprite(DrawLargeSprite(s, x, y), x, y).video == s.video
  {
    var t := DrawLargeSprite(s, x, y);
    assert LargeLayout(t, x, y) == LargeLayout(s, x, y);
    assert SpriteRows(t, 16) == SpriteRows(s, 16);
    LandsInsideFits(LargeLayout(s, x, y), SpriteRows(s, 16), 2 * SpriteSize, VideoSize);
    PaintTwice(s.video, LargeGroups(s, x, y));
  }

  /** Outside extended mode every Dxyn whose rows lie in memory stays inside
      the framebuffer: the doubled origin is even, so each 2x2 block fits. */
  lemma LowResDrawDefined(s: CpuState, x: Nibble, y: Nibble, n: Nibble)
    requires !s.extendedMode && s.core.index + n <= MemorySize
    ensures Defined(s, Draw(x, y, n))
  {
    var xp := (s.core.registers[x] * 2) % VideoWidth;
    var yp := (s.core.registers[y] * 2) % VideoHeight;
    assert DrawLayout(s, x, y) == Scaled(xp, yp, 2, true);
    LowResLandsInside(xp, yp, SpriteRows(s, n), SpriteSize);
  }

  /** In extended mode with the dotted-rendering quirk, a sprite whose first
      pixel is lit drawn at row 63 writes a block past the framebuffer. */
  lemma DottedHighResOverflows(s: CpuState, x: Nibble, y: Nibble)
    requires s.extendedMode && s.experimental.dottedRendering
    requires s.core.registers[y] == 63 && s.core.index < MemorySize && Lit(s.core.memory[s.core.index], 0)
    ensures !Defined(s, Draw(x, y, 1))
  {
    var l := DrawLayout(s, x, y);
    assert l == Scaled(s.core.registers[x] % VideoWidth, 63, 1, true);
    var rows := SpriteRows(s, 1);
    assert rows[0] == s.core.memory[s.core.index];
    ScaledHighResDoubledOverflows(s.core.registers[x] % VideoWidth);
    assert !Fits(Place(l, 0, 0), VideoSize);
  }

  /** Dxy0 sets VF exactly when some lit sprite pixel lands on a lit cell. */
  lemma DrawLargeFlag(s: CpuState, x: Nibble, y: Nibble)
    requires s.extendedMode && Defined(s, DrawLarge(x, y))
    ensures DrawLargeSprite(s, x, y).core.registers[VF] == 1 <==>
      LandsOnLit(s.video, LargeLayout(s, x, y), SpriteRows(s, 16), 16)
  {
    LandsInsideFits(LargeLayout(s, x, y), SpriteRows(s, 16), 2 * SpriteSize, VideoSize);
    AnyHitDirect(s.video, s.core.registers[x] % VideoWidth, s.core.registers[y] % VideoHeight, VideoWidth,
      SpriteRows(s, 16), 16);
  }

  /** Dxy0 does nothing outside extended mode. */
  lemma DrawLargeLowRes(s: CpuState, x: Nibble, y: Nibble)
    requires !s.extendedMode
    ensures Defined(s, DrawLarge(x, y)) && Exec(s, DrawLarge(x, y), 0) == s
  {
  }

  // ---------------------------------------------------------------------
  // Properties of the cycle

  /** Instructions that neither move pc nor write a timer. */
  predicate KeepsFlow(i: Instr) {
    !(i.Ret? || i.Jump? || i.Call? || i.SkipEqImm? || i.SkipNeImm? || i.SkipEqReg? || i.SkipNeReg? ||
      i.JumpV0? || i.SkipKey? || i.SkipNotKey? || i.WaitKey? || i.SetDelay? || i.SetSound?)
  }

  lemma ExecKeepsFlow(s: CpuState, i: Instr, rnd: Byte)
    requires Defined(s, i) && KeepsFlow(i)
    ensures Exec(s, i, rnd).core.pc == s.core.pc
    ensures Exec(s, i, rnd).core.delayTimer == s.core.delayTimer
    ensures Exec(s, i, rnd).core.soundTimer == s.core.soundTimer
  {
    if IsShared(i) {
      CoreExecKeepsFlow(s.core, i, rnd);
    }
  }

  /** The shared part of the lemma above. */
  lemma CoreExecKeepsFlow(s: CoreState, i: Instr, rnd: Byte)
    requires IsShared(i) && CoreDefined(s, i) && KeepsFlow(i)
    ensures CoreExec(s, i, rnd).pc == s.pc
    ensures CoreExec(s, i, rnd).delayTimer == s.delayTimer
    ensures CoreExec(s, i, rnd).soundTimer == s.soundTimer
  {
  }

  /** A step over such an instruction moves pc to the next instruction and
      ticks both timers once. */
  lemma StepAdvances(s: CpuState, i: Instr, rnd: Byte)
    requires Defined(Advance(s), i) && KeepsFlow(i)
    ensures Step(s, i, rnd).core.pc == (s.core.pc + 2) % 0x10000
    ensures Step(s, i, rnd).core.delayTimer == AfterTick(s.core).delayTimer
    ensures Step(s, i, rnd).core.soundTimer == AfterTick(s.core).soundTimer
  {
    ExecKeepsFlow(Advance(s), i, rnd);
  }

  /** Fx0A with no key down undoes the advance: the step stays on the same
      instruction and changes no register. */
  lemma WaitKeySpins(s: CpuState, x: Nibble, rnd: Byte)
    requires s.core.pc + 1 < MemorySize
    requires forall k :: 0 <= k < KeyCount ==> s.core.keypad[k] == 0
    ensures Defined(Advance(s), WaitKey(x))
    ensures Step(s, WaitKey(x), rnd).core.pc == s.core.pc
    ensures Step(s, WaitKey(x), rnd).core.registers == s.core.registers
  {
    assert FirstPressed(Advance(s).core.keypad, 0).None?;
  }

  /** A step over 2nnn followed by a step over 00EE returns to the
      instruction after the call with the stack level back. */
  lemma CallThenReturnSteps(s: CpuState, nnn: Address, rnd: Byte)
    requires s.core.sp < StackLevels
    ensures Defined(Advance(s), Call(nnn))
    ensures Defined(Advance(Step(s, Call(nnn), rnd)), Ret)
    ensures Step(Step(s, Call(nnn), rnd), Ret, rnd).core.pc == (s.core.pc + 2) % 0x10000
    ensures Step(Step(s, Call(nnn), rnd), Ret, rnd).core.sp == s.core.sp
  {
    var t := Step(s, Call(nnn), rnd);
    assert t.core.sp == s.core.sp + 1 && t.core.stack[s.core.sp] == (s.core.pc + 2) % 0x10000;
  }

  /** Only Cxkk consumes the random byte. */
  lemma ExecIgnoresRnd(s: CpuState, i: Instr, rnd: Byte)
    requires Defined(s, i) && !i.Random?
    ensures Exec(s, i, rnd) == Exec(s, i, 0)
  {
    if IsShared(i) {
      CoreExecIgnoresRnd(s.core, i, rnd);
    }
  }

  lemma CoreExecIgnoresRnd(c: CoreState, i: Instr, rnd: Byte)
    requires IsShared(i) && CoreDefined(c, i) && !i.Random?
    ensures CoreExec(c, i, rnd) == CoreExec(c, i, 0)
  {
  }

  /** A handler common to both revisions, run by CPU.cpp. */
  lemma ExecShared(s: CpuState, i: Instr, rnd: Byte)
    requires IsShared(i) && CoreDefined(s.core, i)
    ensures Defined(s, i) && Exec(s, i, rnd) == s.(core := CoreExec(s.core, i, rnd))
  {
  }

  // ---------------------------------------------------------------------
  // The `CPU` object

  /** `CPU`: the shared state lives in `core`; this revision adds the user
      flags, the framebuffer `current_video` points to, the mode and exit
      flags and the quirk switches. The opcode fields the handlers extract
      from the `opcode` member are passed to them as arguments. */
  class Machine {
    const core: Processor
    const userRegisters: array<Byte>
    const video: array<Pixel>
    var extendedMode: bool
    var quit: bool
    var romLoaded: bool
    var experimental: Experimental

    ghost predicate Valid() {
      core.Valid() && userRegisters.Length == UserRegisterCount && video.Length == VideoSize &&
      userRegisters != core.registers && userRegisters != core.memory && userRegisters != core.keypad
    }

    ghost function State(): CpuState
      requires Valid()
      reads this, core, core.registers, core.memory, core.stack, core.keypad, userRegisters, video
    {
      RawCpu(core.State(), userRegisters[..], video[..], extendedMode, quit, romLoaded, experimental)
    }

    /** `CPU()`: pc at the program start, the font copied to 0x50. */
    constructor ()
      ensures Valid() && State() == Initial
      ensures fresh(core) && fresh(core.registers) && fresh(core.memory) && fresh(core.stack) && fresh(core.keypad)
      ensures fresh(userRegisters) && fresh(video)
    {
      core := new Processor();
      userRegisters := new Byte[UserRegisterCount](_ => 0);
      video := new Pixel[VideoSize](_ => 0);
      extendedMode, quit, romLoaded := false, false, false;
      experimental := Experimental(false, false, false);
      new;
      core.pc := StartAddress;
      core.CopyIn(FontsetStartAddress, Fontset);
    }

    /** The copy part of `LoadROM`; `None` is a file that failed to open. */
    method LoadRom(image: Option<seq<Byte>>)
      requires Valid() && (image.Some? ==> |image.value| <= MemorySize - StartAddress)
      modifies this, core.memory
      ensures State() == AfterLoadRom(old(State()), image)
    {
      if image.Some? {
        core.CopyIn(StartAddress, image.value);
        romLoaded := true;
      }
    }

    /** `isSoundPlaying`. */
    function IsSoundPlaying(): (playing: bool)
      requires Valid()
      reads this, core, core.registers, core.memory, core.stack, core.keypad, userRegisters, video
      ensures playing <==> State().core.soundTimer > 0
    {
      core.soundTimer > 0
    }

    /** 00E0: `memset` over the size of a pointer clears two cells. */
    method Op00E0()
      requires Valid()
      modifies video
      ensures State() == Exec(old(State()), Cls, 0)
    {
      video[0] := 0;
      video[1] := 0;
    }

    /** 00Bn on the cells of `video`: rows 0..n take the rows n below them,
        one cell at a time, then the first n columns are cleared. The clearing
        writes past the end are not modelled (see `ScrollOverruns`). */
    method Op00Bn(n: Nibble)
      requires Valid()
      modifies video
      ensures State() == old(State()).(video := ScrolledUp(old(video[..]), n))
    {
      ghost var v := video[..];
      var row := 0;
      while row <= n
        invariant 0 <= row <= n + 1
        invariant forall a {:trigger video[a]} :: 0 <= a < VideoSize ==>
          video[a] == if a < row * 128 then v[a + n * 128] else v[a]
      {
        var col := 0;
        while col < 128
          invariant 0 <= col <= 128
          invariant forall a {:trigger video[a]} :: 0 <= a < VideoSize ==>
            video[a] == if a < row * 128 + col then v[a + n * 128] else v[a]
        {
          video[row * 128 + col] := video[(row + n) * 128 + col];
          col := col + 1;
        }
        row := row + 1;
      }
      ClearLeftColumns(n);
      assert video[..] == ScrolledUp(v, n);
    }

    /** 00Cn on the cells of `video`: rows 63 down to n take the rows n above
        them, then the first n columns are cleared. The clearing writes past
        the end are not modelled (see `ScrollOverruns`). */
    method Op00Cn(n: Nibble)
      requires Valid()
      modifies video
      ensures State() == old(State()).(video := ScrolledDown(old(video[..]), n))
    {
      ghost var v := video[..];
      var row := 63;
      while row >= n
        invariant n - 1 <= row <= 63
        invariant forall a {:trigger video[a]} :: 0 <= a < VideoSize ==>
          video[a] == if a >= (row + 1) * 128 then v[a - n * 128] else v[a]
      {
        var col := 0;
        while col < 128
          invariant 0 <= col <= 128
          invariant forall a {:trigger video[a]} :: 0 <= a < VideoSize ==>
            video[a] == if a >= (row + 1) * 128 || row * 128 <= a < row * 128 + col then v[a - n * 128] else v[a]
        {
          video[row * 128 + col] := video[(row - n) * 128 + col];
          col := col + 1;
        }
        row := row - 1;
      }
      ClearLeftColumns(n);
      assert video[..] == ScrolledDown(v, n);
    }

    /** The second loop of 00Bn and 00Cn: the first n cells of every row are
        cleared (of the 64 rows the framebuffer has). */
    method ClearLeftColumns(n: Nibble)
      requires Valid()
      modifies video
      ensures forall a :: 0 <= a < VideoSize ==> video[a] == if a % 128 < n then 0 else old(video[a])
    {
      var row := 0;
      while row < 64
        invariant 0 <= row <= 64
        invariant forall a :: 0 <= a < VideoSize ==>
          video[a] == if a / 128 < row && a % 128 < n then 0 else old(video[a])
      {
        var col := 0;
        while col < n
          invariant 0 <= col <= n
          invariant forall a :: 0 <= a < VideoSize ==>
            video[a] == if (a / 128 < row && a % 128 < n) || (a / 128 == row && a % 128 < col) then 0 else old(video[a])
        {
          video[row * 128 + col] := 0;
          col := col + 1;
        }
        row := row + 1;
      }
    }

    method Op00FD()
      requires Valid()
      modifies this
      ensures State() == Exec(old(State()), Exit, 0)
    {
      quit := true;
    }

    method Op00FE()
      requires Valid()
      modifies this
      ensures State() == Exec(old(State()), LowRes, 0)
    {
      extendedMode := false;
    }

    method Op00FF()
      requires Valid()
      modifies this
      ensures State() == Exec(old(State()), HighRes, 0)
    {
      extendedMode := true;
    }

    method Op8xy6(x: Nibble, y: Nibble)
      requires Valid()
      modifies core.registers
      ensures State() == Exec(old(State()), Shr(x, y), 0)
    {
      var c := x;
      if experimental.shift {
        c := y;
      }
      core.registers[VF] := core.registers[c] % 2;
      core.registers[x] := core.registers[c] / 2;
    }

    method Op8xyE(x: Nibble, y: Nibble)
      requires Valid()
      modifies core.registers
      ensures State() == Exec(old(State()), Shl(x, y), 0)
    {
      var c := x;
      if experimental.shift {
        c := y;
      }
      core.registers[VF] := core.registers[c] / 128;
      core.registers[x] := (core.registers[c] as int * 2) % 256;
    }

    /** The body of the draw loops for one lit sprite pixel: the collision
        is read from the cells before any of them is flipped with `^=`. */
    method DrawGroup(g: Group) returns (hit: bool)
      requires Valid() && Fits(g, VideoSize)
      modifies video
      ensures hit == Hit(old(video[..]), g)
      ensures video[..] == ToggleGroup(old(video[..]), g)
    {
      match g
      case Single(a) =>
        hit := video[a] == On;
        video[a] := Toggle(video[a]);
      case Block(a1, a2, a3, a4) =>
        hit := video[a1] == On || video[a2] == On || video[a3] == On || video[a4] == On;
        video[a1] := Toggle(video[a1]);
        video[a2] := Toggle(video[a2]);
        video[a3] := Toggle(video[a3]);
        video[a4] := Toggle(video[a4]);
    }

    /** Dxyn: VF is reset, then each lit pixel of the n rows at I toggles its
        cell or 2x2 block and assigns its collision to VF. */
    method OpDxyn(x: Nibble, y: Nibble, n: Nibble)
      requires Valid() && Defined(State(), Draw(x, y, n))
      modifies core.registers, video
      ensures State() == Exec(old(State()), Draw(x, y, n), 0)
    {
      ghost var s := State();
      ghost var r0 := core.registers[..];
      var k := Scale(extendedMode);
      var xPos := (core.registers[x] * k) % 128;
      var yPos := (core.registers[y] * k) % 64;
      var doubled := !extendedMode || experimental.dottedRendering;
      ghost var l := DrawLayout(s, x, y);
      assert l == Scaled(xPos, yPos, k, doubled);
      ghost var rows := SpriteRows(s, n);
      assert LandsInside(l, rows, SpriteSize, VideoSize);
      core.registers[VF] := 0;
      DrawScaledRows(xPos, yPos, k, doubled, n, rows, s.video, r0);
      ExecDraw(s, x, y, n);
    }

    /** Dxyn's drawing so far: the screen is v with the groups gs toggled,
        VF holds the collision of the last of them and the other registers
        are as in r0. */
    ghost predicate ScaledDrawn(v: seq<Pixel>, gs: seq<Group>, r0: seq<Byte>)
      reads video, core.registers
    {
      |v| == VideoSize && |r0| == RegisterCount && AllFit(gs, VideoSize) &&
      video[..] == Painted(v, gs) && core.registers[..] == r0[VF := LastHit(v, gs)]
    }

    /** The row loop of Dxyn: rows[r] is read from memory[I + r]. */
    method DrawScaledRows(xPos: int, yPos: int, k: int, doubled: bool, n: nat,
                          ghost rows: seq<Byte>, ghost v: seq<Pixel>, ghost r0: seq<Byte>)
      requires Valid() && |v| == VideoSize && |r0| == RegisterCount && |rows| == n
      requires core.index + n <= MemorySize && core.memory[core.index..core.index + n] == rows
      requires LandsInside(Scaled(xPos, yPos, k, doubled), rows, SpriteSize, VideoSize)
      requires video[..] == v && core.registers[..] == r0[VF := 0]
      modifies core.registers, video
      ensures ScaledDrawn(v, SpriteGroups(Scaled(xPos, yPos, k, doubled), rows, SpriteSize), r0)
    {
      ghost var l := Scaled(xPos, yPos, k, doubled);
      assert SpriteGroups(l, rows[..0], SpriteSize) == [];
      var row := 0;
      while row < n
        invariant 0 <= row <= n
        invariant core.memory[core.index..core.index + n] == rows
        invariant ScaledDrawn(v, SpriteGroups(l, rows[..row], SpriteSize), r0)
      {
        DrawScaledRowAt(xPos, yPos, k, doubled, row, rows, v, r0);
        row := row + 1;
      }
      assert rows[..n] == rows;
    }

    /** Row `row` of Dxyn read from memory and drawn: the drawn prefix grows by one row. */
    method DrawScaledRowAt(xPos: int, yPos: int, k: int, doubled: bool, row: nat,
                           ghost rows: seq<Byte>, ghost v: seq<Pixel>, ghost r0: seq<Byte>)
      requires Valid() && row < |rows|
      requires core.index + |rows| <= MemorySize && core.memory[core.index..core.index + |rows|] == rows
      requires LandsInside(Scaled(xPos, yPos, k, doubled), rows, SpriteSize, VideoSize)
      requires ScaledDrawn(v, SpriteGroups(Scaled(xPos, yPos, k, doubled), rows[..row], SpriteSize), r0)
      modifies core.registers, video
      ensures ScaledDrawn(v, SpriteGroups(Scaled(xPos, yPos, k, doubled), rows[..row + 1], SpriteSize), r0)
    {
      ghost var l := Scaled(xPos, yPos, k, doubled);
      var spriteByte := core.memory[core.index + row];
      assert spriteByte == rows[row];
      LandsInsideRow(l, rows, SpriteSize, VideoSize, row);
      DrawScaledRow(xPos, yPos, k, doubled, row, spriteByte, v, SpriteGroups(l, rows[..row], SpriteSize), r0);
      SpriteGroupsSnoc(l, rows, SpriteSize, row);
    }

    /** One row of Dxyn: the inner loop over the 8 columns. */
    method DrawScaledRow(xPos: int, yPos: int, k: int, doubled: bool, row: nat, spriteByte: Byte,
                         ghost v: seq<Pixel>, ghost done: seq<Group>, ghost r0: seq<Byte>)
      requires Valid() && ScaledDrawn(v, done, r0)
      requires forall c :: 0 <= c < SpriteSize && Lit(spriteByte, c) ==>
        Fits(Place(Scaled(xPos, yPos, k, doubled), row, c), VideoSize)
      modifies core.registers, video
      ensures ScaledDrawn(v, done + RowGroups(Scaled(xPos, yPos, k, doubled), spriteByte, row, SpriteSize), r0)
    {
      ghost var l := Scaled(xPos, yPos, k, doubled);
      assert done + RowGroups(l, spriteByte, row, 0) == done;
      var col := 0;
      while col < SpriteSize
        invariant 0 <= col <= SpriteSize
        invariant ScaledDrawn(v, done + RowGroups(l, spriteByte, row, col), r0)
      {
        ghost var gs := done + RowGroups(l, spriteByte, row, col);
        LitIsMaskTest(spriteByte, col);
        if BitAnd(spriteByte, ColumnMask(col)) != 0 {
          DrawScaledPixel(xPos, yPos, k, doubled, row, col, v, gs, r0);
          assert done + RowGroups(l, spriteByte, row, col + 1) == gs + [Place(l, row, col)];
        } else {
          assert done + RowGroups(l, spriteByte, row, col + 1) == gs;
        }
        col := col + 1;
      }
    }

    /** One lit pixel of Dxyn: its cell or 2x2 block is flipped and VF is
        assigned its collision. */
    method DrawScaledPixel(xPos: int, yPos: int, k: int, doubled: bool, row: nat, col: nat,
                           ghost v: seq<Pixel>, ghost gs: seq<Group>, ghost r0: seq<Byte>)
      requires Valid() && ScaledDrawn(v, gs, r0)
      requires Fits(Place(Scaled(xPos, yPos, k, doubled), row, col), VideoSize)
      modifies core.registers, video
      ensures ScaledDrawn(v, gs + [Place(Scaled(xPos, yPos, k, doubled), row, col)], r0)
    {
      var g := Place(Scaled(xPos, yPos, k, doubled), row, col);
      PaintedSnoc(v, gs, g);
      var hit := DrawGroup(g);
      core.registers[VF] := if hit then 1 else 0;
    }

    /** Dxy0: in extended mode, 16 rows of one byte each, 16 columns of which
        the last 8 are never lit; VF is set by any collision. */
    method OpDxy0(x: Nibble, y: Nibble)
      requires Valid() && Defined(State(), DrawLarge(x, y))
      modifies core.registers, video
      ensures State() == Exec(old(State()), DrawLarge(x, y), 0)
    {
      ghost var s := State();
      ghost var r0 := core.registers[..];
      ExecDrawLarge(s, x, y);
      if !extendedMode {
        return;
      }
      var xPos := core.registers[x] % 128;
      var yPos := core.registers[y] % 64;
      ghost var l := LargeLayout(s, x, y);
      assert l == Direct(xPos, yPos, 128);
      ghost var rows := SpriteRows(s, 16);
      assert LandsInside(l, rows, 16, VideoSize);
      core.registers[VF] := 0;
      DrawDirectRows(xPos, yPos, rows, s.video, r0);
    }

    /** Dxy0's drawing so far: the screen is v with the groups gs toggled,
        VF is 1 exactly when one of them collided and the other registers
        are as in r0. */
    ghost predicate DirectDrawn(v: seq<Pixel>, gs: seq<Group>, r0: seq<Byte>)
      reads video, core.registers
    {
      |v| == VideoSize && |r0| == RegisterCount && AllFit(gs, VideoSize) &&
      video[..] == Painted(v, gs) && core.registers[..] == r0[VF := Flag(AnyHit(v, gs))]
    }

    /** The row loop of Dxy0: 16 rows of one byte each, rows[r] read from memory[I + r]. */
    method DrawDirectRows(xPos: int, yPos: int, ghost rows: seq<Byte>, ghost v: seq<Pixel>, ghost r0: seq<Byte>)
      requires Valid() && |v| == VideoSize && |r0| == RegisterCount && |rows| == 16
      requires core.index + 16 <= MemorySize && core.memory[core.index..core.index + 16] == rows
      requires LandsInside(Direct(xPos, yPos, 128), rows, 16, VideoSize)
      requires video[..] == v && core.registers[..] == r0[VF := 0]
      modifies core.registers, video
      ensures DirectDrawn(v, SpriteGroups(Direct(xPos, yPos, 128), rows, 16), r0)
    {
      ghost var l := Direct(xPos, yPos, 128);
      assert SpriteGroups(l, rows[..0], 16) == [];
      var row := 0;
      while row < 16
        invariant 0 <= row <= 16
        invariant core.memory[core.index..core.index + 16] == rows
        invariant DirectDrawn(v, SpriteGroups(l, rows[..row], 16), r0)
      {
        DrawDirectRowAt(xPos, yPos, row, rows, v, r0);
        row := row + 1;
      }
      assert rows[..16] == rows;
    }

    /** Row `row` of Dxy0 read from memory and drawn: the drawn prefix grows by one row. */
    method DrawDirectRowAt(xPos: int, yPos: int, row: nat, ghost rows: seq<Byte>, ghost v: seq<Pixel>, ghost r0: seq<Byte>)
      requires Valid() && |rows| == 16 && row < 16
      requires core.index + 16 <= MemorySize && core.memory[core.index..core.index + 16] == rows
      requires LandsInside(Direct(xPos, yPos, 128), rows, 16, VideoSize)
      requires DirectDrawn(v, SpriteGroups(Direct(xPos, yPos, 128), rows[..row], 16), r0)
      modifies core.registers, video
      ensures DirectDrawn(v, SpriteGroups(Direct(xPos, yPos, 128), rows[..row + 1], 16), r0)
    {
      ghost var l := Direct(xPos, yPos, 128);
      var spriteByte := core.memory[core.index + row];
      assert spriteByte == rows[row];
      LandsInsideRow(l, rows, 16, VideoSize, row);
      DrawDirectRow(xPos, yPos, row, spriteByte, v, SpriteGroups(l, rows[..row], 16), r0);
      SpriteGroupsSnoc(l, rows, 16, row);
    }

    /** One row of Dxy0: the inner loop over 16 columns. */
    method DrawDirectRow(xPos: int, yPos: int, row: nat, spriteByte: Byte,
                         ghost v: seq<Pixel>, ghost done: seq<Group>, ghost r0: seq<Byte>)
      requires Valid() && DirectDrawn(v, done, r0)
      requires forall c :: 0 <= c < 16 && Lit(spriteByte, c) ==> Fits(Place(Direct(xPos, yPos, 128), row, c), VideoSize)
      modifies core.registers, video
      ensures DirectDrawn(v, done + RowGroups(Direct(xPos, yPos, 128), spriteByte, row, 16), r0)
    {
      ghost var l := Direct(xPos, yPos, 128);
      assert done + RowGroups(l, spriteByte, row, 0) == done;
      var col := 0;
      while col < 16
        invariant 0 <= col <= 16
        invariant DirectDrawn(v, done + RowGroups(l, spriteByte, row, col), r0)
      {
        ghost var gs := done + RowGroups(l, spriteByte, row, col);
        LitIsMaskTest(spriteByte, col);
        if BitAnd(spriteByte, ColumnMask(col)) != 0 {
          DrawDirectPixel(xPos, yPos, row, col, v, gs, r0);
          assert done + RowGroups(l, spriteByte, row, col + 1) == gs + [Place(l, row, col)];
        } else {
          assert done + RowGroups(l, spriteByte, row, col + 1) == gs;
        }
        col := col + 1;
      }
    }

    /** One lit pixel of Dxy0: its cell is flipped, and VF set on a collision. */
    method DrawDirectPixel(xPos: int, yPos: int, row: nat, col: nat,
                           ghost v: seq<Pixel>, ghost gs: seq<Group>, ghost r0: seq<Byte>)
      requires Valid() && DirectDrawn(v, gs, r0)
      requires Fits(Place(Direct(xPos, yPos, 128), row, col), VideoSize)
      modifies core.registers, video
      ensures DirectDrawn(v, gs + [Place(Direct(xPos, yPos, 128), row, col)], r0)
    {
      var g := Single((yPos + row) * 128 + (xPos + col));
      PaintedSnoc(v, gs, g);
      var hit := DrawGroup(g);
      if hit {
        core.registers[VF] := 1;
      }
    }

    method OpFx30(x: Nibble)
      requires Valid()
      modifies core
      ensures State() == Exec(old(State()), FontLarge(x), 0)
    {
      var digit := core.registers[x];
      core.index := FontsetStartAddress + 10 * digit as int;
    }

    /** Fx33: ones, tens and hundreds by successive division. */
    method OpFx33(x: Nibble)
      requires Valid() && core.index + 2 < MemorySize
      modifies core.memory
      ensures State() == Exec(old(State()), Bcd(x), 0)
    {
      var value := core.registers[x];
      core.memory[core.index + 2] := value % 10;
      value := value / 10;
      core.memory[core.index + 1] := value % 10;
      value := value / 10;
      core.memory[core.index] := value % 10;
    }

    method OpFx55(x: Nibble)
      requires Valid() && TransferFits(core.State(), x)
      modifies core, core.memory
      ensures State() == Exec(old(State()), Store(x), 0)
    {
      core.StoreRegisters(x);
      if experimental.loadFlag {
        core.index := (core.index + x + 1) % 0x10000;
      }
    }

    method OpFx65(x: Nibble)
      requires Valid() && TransferFits(core.State(), x)
      modifies core, core.registers
      ensures State() == Exec(old(State()), Load(x), 0)
    {
      core.LoadRegisters(x);
      if experimental.loadFlag {
        core.index := (core.index + x + 1) % 0x10000;
      }
    }

    /** Fx75: V0..Vx to the user flags from I on. */
    method OpFx75(x: Nibble)
      requires Valid() && core.index + x < UserRegisterCount
      modifies userRegisters
      ensures State() == Exec(old(State()), SaveFlags(x), 0)
    {
      var i := 0;
      while i <= x
        invariant 0 <= i <= x + 1
        invariant forall k :: 0 <= k < UserRegisterCount ==>
          userRegisters[k] == if core.index <= k < core.index + i then core.registers[k - core.index] else old(userRegisters[k])
      {
        userRegisters[core.index + i] := core.registers[i];
        i := i + 1;
      }
      assert userRegisters[..] == FlagsSaved(old(userRegisters[..]), core.registers[..], core.index, x);
    }

    /** Fx85: the user flags from I on to V0..Vx. */
    method OpFx85(x: Nibble)
      requires Valid() && core.index + x < UserRegisterCount
      modifies core.registers
      ensures State() == Exec(old(State()), LoadFlags(x), 0)
    {
      var i := 0;
      while i <= x
        invariant 0 <= i <= x + 1
        invariant forall k :: 0 <= k < RegisterCount ==>
          core.registers[k] == if k < i then userRegisters[core.index + k] else old(core.registers[k])
      {
        core.registers[i] := userRegisters[core.index + i];
        i := i + 1;
      }
      assert core.registers[..] == FlagsLoaded(old(core.registers[..]), userRegisters[..], core.index, x);
    }

    /** `Cycle`: fetch the big-endian word at pc, move pc past it, run its
        handler, then tick the timers. `rnd` is the byte Cxkk would draw. */
    method Cycle(rnd: Byte)
      requires Valid() && CycleDefined(State())
      modifies this, core, core.registers, core.memory, core.stack, userRegisters, video
      ensures State() == CycleSpec(old(State()), rnd)
    {
      var opcode := core.memory[core.pc] as int * 0x100 + core.memory[core.pc + 1];
      core.pc := (core.pc + 2) % 0x10000;
      ParseOpcodes(opcode, rnd);
      core.TickTimers();
    }

    /** `ParseOpcodes`: the switch on the opcode's bits picks a handler.
        The switch is `Decode`; running the handler it picks is `Execute`. */
    method ParseOpcodes(opcode: Word, rnd: Byte)
      requires Valid() && Defined(State(), Decode(opcode))
      modifies this, core, core.registers, core.memory, core.stack, userRegisters, video
      ensures State() == Exec(old(State()), Decode(opcode), rnd)
    {
      var i := Decode(opcode);
      Execute(i, rnd);
    }

    /** The handler of one decoded instruction. The handlers common to both
        revisions run on `core`; 00FB, 00FC and the sub-codes no case matches
        change nothing. */
    method Execute(i: Instr, rnd: Byte)
      requires Valid() && Defined(State(), i)
      modifies this, core, core.registers, core.memory, core.stack, userRegisters, video
      ensures State() == Exec(old(State()), i, rnd)
    {
      if IsShared(i) {
        ExecuteShared(i, rnd);
      } else if i.Cls? || i.ScrollDown? || i.ScrollUp? || i.Exit? || i.LowRes? || i.HighRes? || i.Draw? || i.DrawLarge? {
        ExecuteScreenOp(i, rnd);
      } else {
        ExecuteRegisterOp(i, rnd);
      }
    }

    /** A handler common to both revisions, run on `core`. */
    method ExecuteShared(i: Instr, rnd: Byte)
      requires Valid() && IsShared(i) && Defined(State(), i)
      modifies core, core.registers, core.stack
      ensures State() == Exec(old(State()), i, rnd)
    {
      ghost var s := State();
      core.Execute(i, rnd);
      ExecShared(s, i, rnd);
    }

    /** The handlers of this revision that work on the screen and its modes. */
    method ExecuteScreenOp(i: Instr, rnd: Byte)
      requires Valid() && Defined(State(), i)
      requires i.Cls? || i.ScrollDown? || i.ScrollUp? || i.Exit? || i.LowRes? || i.HighRes? || i.Draw? || i.DrawLarge?
      modifies this, core.registers, video
      ensures State() == Exec(old(State()), i, rnd)
    {
      ExecIgnoresRnd(State(), i, rnd);
      if i.Cls? { Op00E0(); }
      else if i.ScrollDown? { Op00Cn(i.n); }
      else if i.ScrollUp? { Op00Bn(i.n); }
      else if i.Exit? { Op00FD(); }
      else if i.LowRes? { Op00FE(); }
      else if i.HighRes? { Op00FF(); }
      else if i.Draw? { OpDxyn(i.x, i.y, i.n); }
      else { OpDxy0(i.x, i.y); }
    }

    /** The handlers of this revision that work on registers and memory;
        00FB, 00FC and the sub-codes no case matches change nothing. */
    method ExecuteRegisterOp(i: Instr, rnd: Byte)
      requires Valid() && Defined(State(), i) && !IsShared(i)
      requires !(i.Cls? || i.ScrollDown? || i.ScrollUp? || i.Exit? || i.LowRes? || i.HighRes? || i.Draw? || i.DrawLarge?)
      modifies core, core.registers, core.memory, userRegisters
      ensures State() == Exec(old(State()), i, rnd)
    {
      ExecIgnoresRnd(State(), i, rnd);
      if i.Shr? { Op8xy6(i.x, i.y); }
      else if i.Shl? { Op8xyE(i.x, i.y); }
      else if i.FontLarge? { OpFx30(i.x); }
      else if i.Bcd? { OpFx33(i.x); }
      else if i.Store? { OpFx55(i.x); }
      else if i.Load? { OpFx65(i.x); }
      else if i.SaveFlags? { OpFx75(i.x); }
      else if i.LoadFlags? { OpFx85(i.x); }
    }
  }
}
