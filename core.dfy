/** The machine state and the instruction handlers whose code is the same in
    both revisions of the interpreter (ChipEi/CPU.cpp and ChipEi/Chip8.cpp):
    registers, memory, index, program counter, stack, timers and keypad. */
module Core {
  import opened Opcodes

  const MemorySize: nat := 4096
  const RegisterCount: nat := 16
  const StackLevels: nat := 16
  const KeyCount: nat := 16
  const StartAddress: Word := 0x200
  const FontsetStartAddress: Word := 0x50
  /** The flag register VF and the register V0 used by Bnnn. */
  const VF: Nibble := 0xF
  const V0: Nibble := 0

  datatype Option<T> = None | Some(value: T)

  datatype RawCore = RawCore(
    registers: seq<Byte>,  // V0..VF
    memory: seq<Byte>,
    index: Word,           // I
    pc: Word,
    stack: seq<Word>,
    sp: Byte,              // the next free stack slot
    delayTimer: Byte,
    soundTimer: Byte,
    keypad: seq<Byte>)     // nonzero = key down

  /** The fixed array sizes of the C++ fields. */
  type CoreState = c: RawCore |
    |c.registers| == RegisterCount && |c.memory| == MemorySize &&
    |c.stack| == StackLevels && |c.keypad| == KeyCount
    witness RawCore(seq(16, _ => 0), seq(4096, _ => 0), 0, 0, seq(16, _ => 0), 0, 0, 0, seq(16, _ => 0))

  /** Every field value-initialised, as the `{}` initialisers leave them. */
  const Blank: CoreState :=
    RawCore(seq(16, _ => 0), seq(4096, _ => 0), 0, 0, seq(16, _ => 0), 0, 0, 0, seq(16, _ => 0))

  // ---------------------------------------------------------------------
  // Pure description of the shared handlers

  function SetRegister(s: CoreState, x: Nibble, v: Byte): CoreState {
    s.(registers := s.registers[x := v])
  }

  /** The "+2 more" of the skip instructions. */
  function SkipIf(s: CoreState, cond: bool): CoreState {
    if cond then s.(pc := (s.pc + 2) % 0x10000) else s
  }

  /** The value the arithmetic instructions leave in VF. */
  function Flag(b: bool): Byte { if b then 1 else 0 }

  /** 8xy4: the sum is held in an 8-bit variable before the carry test. */
  function AddWithCarry(r: seq<Byte>, x: Nibble, y: Nibble): seq<Byte>
    requires |r| == RegisterCount
  {
    var sum: Byte := (r[x] as int + r[y]) % 0x100;
    var flagged := r[VF := Flag(sum > 255)];
    flagged[x := sum]
  }

  /** 8xy5: VF is written first, then Vx - Vy is read from the updated file. */
  function SubWithBorrow(r: seq<Byte>, x: Nibble, y: Nibble): seq<Byte>
    requires |r| == RegisterCount
  {
    var flagged := r[VF := Flag(r[x] > r[y])];
    flagged[x := (flagged[x] as int - flagged[y]) % 0x100]
  }

  /** 8xy7: as 8xy5 with the operands of the subtraction swapped. */
  function ReverseSubWithBorrow(r: seq<Byte>, x: Nibble, y: Nibble): seq<Byte>
    requires |r| == RegisterCount
  {
    var flagged := r[VF := Flag(r[y] > r[x])];
    flagged[x := (flagged[y] as int - flagged[x]) % 0x100]
  }

  /** The lowest-numbered key at or after `i` that is down. */
  function FirstPressed(keys: seq<Byte>, i: nat): (k: Option<nat>)
    requires i <= |keys|
    ensures k.Some? ==> i <= k.value < |keys| && keys[k.value] != 0
    ensures k.Some? ==> forall j :: i <= j < k.value ==> keys[j] == 0
    ensures k.None? <==> forall j :: i <= j < |keys| ==> keys[j] == 0
    decreases |keys| - i
  {
    if i == |keys| then None
    else if keys[i] != 0 then Some(i)
    else FirstPressed(keys, i + 1)
  }

  /** The instructions whose handlers are textually the same in both revisions. */
  predicate IsShared(i: Instr) {
    i.Ret? || i.Jump? || i.Call? || i.SkipEqImm? || i.SkipNeImm? || i.SkipEqReg? ||
    i.LoadImm? || i.AddImm? || i.Move? || i.Or? || i.And? || i.Xor? || i.Add? ||
    i.Sub? || i.SubN? || i.SkipNeReg? || i.LoadIndex? || i.JumpV0? || i.Random? ||
    i.SkipKey? || i.SkipNotKey? || i.GetDelay? || i.WaitKey? || i.SetDelay? ||
    i.SetSound? || i.AddIndex? || i.FontSmall?
  }

  /** What the handlers need to stay inside the C++ arrays; the source checks
      none of it (no stack overflow or underflow test, no key range test). */
  predicate CoreDefined(s: CoreState, i: Instr) {
    (i.Ret? ==> 1 <= s.sp <= StackLevels) &&
    (i.Call? ==> s.sp < StackLevels) &&
    (i.SkipKey? || i.SkipNotKey? ==> s.registers[i.x] < KeyCount)
  }

  /** The effect of one shared handler; `rnd` is the random byte drawn by Cxkk.
      (Written as a chain of constructor tests rather than a `match`, whose
      catch-all case would be expanded over every other constructor.) */
  function CoreExec(s: CoreState, i: Instr, rnd: Byte): CoreState
    requires IsShared(i) && CoreDefined(s, i)
  {
    if i.Ret? then s.(sp := s.sp - 1, pc := s.stack[s.sp - 1])
    else if i.Jump? then s.(pc := i.nnn)
    else if i.Call? then s.(stack := s.stack[s.sp := s.pc], sp := s.sp + 1, pc := i.nnn)
    else if i.SkipEqImm? then SkipIf(s, s.registers[i.x] == i.kk)
    else if i.SkipNeImm? then SkipIf(s, s.registers[i.x] != i.kk)
    else if i.SkipEqReg? then SkipIf(s, s.registers[i.x] == s.registers[i.y])
    else if i.LoadImm? then SetRegister(s, i.x, i.kk)
    else if i.AddImm? then SetRegister(s, i.x, (s.registers[i.x] as int + i.kk) % 0x100)
    else if i.Move? then SetRegister(s, i.x, s.registers[i.y])
    else if i.Or? then SetRegister(s, i.x, BitOr(s.registers[i.x], s.registers[i.y]))
    else if i.And? then SetRegister(s, i.x, BitAnd(s.registers[i.x], s.registers[i.y]))
    else if i.Xor? then SetRegister(s, i.x, BitXor(s.registers[i.x], s.registers[i.y]))
    else if i.Add? then s.(registers := AddWithCarry(s.registers, i.x, i.y))
    else if i.Sub? then s.(registers := SubWithBorrow(s.registers, i.x, i.y))
    else if i.SubN? then s.(registers := ReverseSubWithBorrow(s.registers, i.x, i.y))
    else if i.SkipNeReg? then SkipIf(s, s.registers[i.x] != s.registers[i.y])
    else if i.LoadIndex? then s.(index := i.nnn)
    else if i.JumpV0? then s.(pc := i.nnn + s.registers[V0])
    else if i.Random? then SetRegister(s, i.x, BitAnd(rnd, i.kk))
    else if i.SkipKey? then SkipIf(s, s.keypad[s.registers[i.x]] != 0)
    else if i.SkipNotKey? then SkipIf(s, s.keypad[s.registers[i.x]] == 0)
    else if i.GetDelay? then SetRegister(s, i.x, s.delayTimer)
    else if i.WaitKey? then
      (match FirstPressed(s.keypad, 0)
       case Some(k) => SetRegister(s, i.x, k)
       case None => s.(pc := (s.pc - 2) % 0x10000))
    else if i.SetDelay? then s.(delayTimer := s.registers[i.x])
    else if i.SetSound? then s.(soundTimer := s.registers[i.x])
    else if i.AddIndex? then s.(index := (s.index + s.registers[i.x]) % 0x10000)
    else s.(index := FontsetStartAddress + 5 * s.registers[i.x] as int)
  }

  /** Memory after a byte-by-byte copy of `bytes` to `start` onwards: the
      font copy of the constructors and the program copy of `LoadROM`. */
  function Copied(m: seq<Byte>, start: nat, bytes: seq<Byte>): (r: seq<Byte>)
    requires start + |bytes| <= |m|
    ensures |r| == |m|
  {
    seq(|m|, a requires 0 <= a < |m| => if start <= a < start + |bytes| then bytes[a - start] else m[a])
  }

  /** Fx55 and Fx65 stay inside memory. */
  predicate TransferFits(s: CoreState, x: Nibble) {
    s.index + x < MemorySize
  }

  /** The copy loop of Fx55: V0..Vx to memory[I..I+x]. */
  function AfterStore(s: CoreState, x: Nibble): CoreState
    requires TransferFits(s, x)
  {
    var i := s.index;
    s.(memory := seq(MemorySize, a requires 0 <= a < MemorySize =>
                       if i <= a <= i + x then s.registers[a - i] else s.memory[a]))
  }

  /** The copy loop of Fx65: memory[I..I+x] to V0..Vx. */
  function AfterLoad(s: CoreState, x: Nibble): CoreState
    requires TransferFits(s, x)
  {
    s.(registers := seq(RegisterCount, r requires 0 <= r < RegisterCount =>
                          if r <= x then s.memory[s.index + r] else s.registers[r]))
  }

  /** The fetch of `Cycle` reads memory[pc] and memory[pc + 1]. */
  predicate CanFetch(s: CoreState) { s.pc + 1 < MemorySize }

  /** Big-endian combination of the two bytes at pc. */
  function Fetch(s: CoreState): Word
    requires CanFetch(s)
  {
    s.memory[s.pc] as int * 0x100 + s.memory[s.pc + 1]
  }

  /** The end of `Cycle`: each timer that is set goes down by one. */
  function AfterTick(s: CoreState): CoreState {
    s.(delayTimer := if s.delayTimer > 0 then s.delayTimer - 1 else s.delayTimer,
       soundTimer := if s.soundTimer > 0 then s.soundTimer - 1 else s.soundTimer)
  }

  // ---------------------------------------------------------------------
  // Properties of the shared handlers

  /** 8xy4 never reports a carry: the sum is already truncated to 8 bits when
      it is compared with 255, so VF ends as 0, or as the sum when x is F. */
  lemma AddCarryIsLost(r: seq<Byte>, x: Nibble, y: Nibble)
    requires |r| == RegisterCount
    ensures var r' := AddWithCarry(r, x, y);
      r'[x] == (r[x] as int + r[y]) % 256 &&
      (x != VF ==> r'[VF] == 0) &&
      forall j :: 0 <= j < RegisterCount && j != x && j != VF ==> r'[j] == r[j]
  {
  }

  /** 8xy5 and 8xy7 with x other than F: VF = 1 exactly when the minuend is
      strictly greater, and, when y is not F either, Vx is the difference
      modulo 256 and every other register is kept. */
  lemma SubtractFlags(r: seq<Byte>, x: Nibble, y: Nibble)
    requires |r| == RegisterCount && x != VF
    ensures var r' := SubWithBorrow(r, x, y);
      (r'[VF] == 1 <==> r[x] > r[y]) && (r'[VF] == 0 <==> r[x] <= r[y]) &&
      (y != VF ==> r'[x] == (r[x] as int - r[y]) % 256) &&
      forall k :: 0 <= k < RegisterCount && k != x && k != VF ==> r'[k] == r[k]
    ensures var r' := ReverseSubWithBorrow(r, x, y);
      (r'[VF] == 1 <==> r[y] > r[x]) && (r'[VF] == 0 <==> r[y] <= r[x]) &&
      (y != VF ==> r'[x] == (r[y] as int - r[x]) % 256) &&
      forall k :: 0 <= k < RegisterCount && k != x && k != VF ==> r'[k] == r[k]
  {
  }

  /** With y = F the subtraction reads the flag just written, not the old VF:
      8xF5 leaves Vx - f and 8xF7 leaves f - Vx, where f is the new flag;
      8FF5 and 8FF7 therefore always leave VF = 0. */
  lemma SubtractFromFlag(r: seq<Byte>, x: Nibble)
    requires |r| == RegisterCount
    ensures var f := Flag(r[x] > r[VF]);
      SubWithBorrow(r, x, VF)[x] == if x == VF then 0 else (r[x] as int - f) % 256
    ensures var f := Flag(r[VF] > r[x]);
      ReverseSubWithBorrow(r, x, VF)[x] == if x == VF then 0 else (f as int - r[x]) % 256
  {
  }

  /** With x = F the flag is written first and the subtraction then reads it,
      so what remains in VF is the difference computed from the flag. */
  lemma SubtractIntoFlag(r: seq<Byte>, y: Nibble)
    requires |r| == RegisterCount && y != VF
    ensures SubWithBorrow(r, VF, y)[VF] == (Flag(r[VF] > r[y]) - r[y] as int) % 256
    ensures ReverseSubWithBorrow(r, VF, y)[VF] == (r[y] as int - Flag(r[y] > r[VF])) % 256
  {
  }

  /** CALL then RET: pc and sp are back, and the only trace left is the return
      address written into the stack slot. */
  lemma CallThenRet(s: CoreState, nnn: Address)
    requires s.sp < StackLevels
    ensures CoreDefined(CoreExec(s, Call(nnn), 0), Ret)
    ensures var r := CoreExec(CoreExec(s, Call(nnn), 0), Ret, 0);
      r.pc == s.pc && r.sp == s.sp && r.stack == s.stack[s.sp := s.pc] &&
      r.registers == s.registers && r.memory == s.memory && r.index == s.index
  {
  }

  /** Fx0A: with a key down the lowest such key lands in Vx and pc is kept;
      with none, pc steps back over the instruction and nothing else moves. */
  lemma WaitKeyEffect(s: CoreState, x: Nibble)
    ensures var r := CoreExec(s, WaitKey(x), 0);
      (forall k :: 0 <= k < KeyCount ==> s.keypad[k] == 0) ==> r == s.(pc := (s.pc - 2) % 0x10000)
    ensures forall k :: (0 <= k < KeyCount && s.keypad[k] != 0 &&
                         forall j :: 0 <= j < k ==> s.keypad[j] == 0) ==>
      CoreExec(s, WaitKey(x), 0) == s.(registers := s.registers[x := k])
  {
  }

  /** Fx55 writes exactly memory[I..I+x], and Fx65 on the same range reads the
      registers back. */
  lemma StoreThenLoad(s: CoreState, x: Nibble)
    requires TransferFits(s, x)
    ensures forall k :: 0 <= k <= x ==> AfterStore(s, x).memory[s.index + k] == s.registers[k]
    ensures forall a :: 0 <= a < MemorySize && !(s.index <= a <= s.index + x) ==>
      AfterStore(s, x).memory[a] == s.memory[a]
    ensures AfterLoad(AfterStore(s, x), x).registers == s.registers
  {
    var t := AfterStore(s, x);
    assert forall r :: 0 <= r < RegisterCount ==> AfterLoad(t, x).registers[r] == s.registers[r];
  }

  /** Fx65 changes only V0..Vx, each to the byte at I + its number. */
  lemma LoadEffect(s: CoreState, x: Nibble)
    requires TransferFits(s, x)
    ensures forall k :: 0 <= k <= x ==> AfterLoad(s, x).registers[k] == s.memory[s.index + k]
    ensures forall k :: x < k < RegisterCount ==> AfterLoad(s, x).registers[k] == s.registers[k]
    ensures AfterLoad(s, x).memory == s.memory && AfterLoad(s, x).index == s.index
  {
  }

  /** Fx29: for a hexadecimal digit, I lands on the first of its five glyph
      bytes inside the 80-byte small font at 0x50. */
  lemma SmallGlyphAddress(s: CoreState, x: Nibble)
    requires s.registers[x] < 16
    ensures var i := CoreExec(s, FontSmall(x), 0).index;
      i == 0x50 + 5 * s.registers[x] && 0x50 <= i && i + 5 <= 0x50 + 80
  {
  }

  /** The timers after `k` cycles' ticks, with nothing else touching them. */
  function Ticks(s: CoreState, k: nat): CoreState
    decreases k
  {
    if k == 0 then s else Ticks(AfterTick(s), k - 1)
  }

  /** Each timer counts down by one per cycle and stops at zero: after k
      ticks it holds max(t - k, 0). So the sound timer is nonzero on exactly
      the first `soundTimer` cycles, and nothing but the timers changes. */
  lemma {:induction false} TimersCountDown(s: CoreState, k: nat)
    ensures Ticks(s, k).delayTimer == if s.delayTimer >= k then s.delayTimer - k else 0
    ensures Ticks(s, k).soundTimer == if s.soundTimer >= k then s.soundTimer - k else 0
    ensures Ticks(s, k).soundTimer > 0 <==> k < s.soundTimer
    ensures Ticks(s, k) == s.(delayTimer := Ticks(s, k).delayTimer, soundTimer := Ticks(s, k).soundTimer)
    decreases k
  {
    if k > 0 {
      TimersCountDown(AfterTick(s), k - 1);
    }
  }

  // ---------------------------------------------------------------------
  // The shared state as a mutable object

  /** The fields both interpreter classes declare, updated in place by the
      shared handlers. The arrays are allocated once and never replaced. */
  class Processor {
    const registers: array<Byte>
    const memory: array<Byte>
    const stack: array<Word>
    const keypad: array<Byte>
    var index: Word
    var pc: Word
    var sp: Byte
    var delayTimer: Byte
    var soundTimer: Byte

    ghost predicate Valid() {
      registers.Length == RegisterCount && memory.Length == MemorySize &&
      stack.Length == StackLevels && keypad.Length == KeyCount &&
      registers != memory && registers != keypad && memory != keypad
    }

    ghost function State(): CoreState
      requires Valid()
      reads this, registers, memory, stack, keypad
    {
      RawCore(registers[..], memory[..], index, pc, stack[..], sp, delayTimer, soundTimer, keypad[..])
    }

    constructor ()
      ensures Valid() && State() == Blank
      ensures fresh(registers) && fresh(memory) && fresh(stack) && fresh(keypad)
    {
      registers := new Byte[RegisterCount](_ => 0);
      memory := new Byte[MemorySize](_ => 0);
      stack := new Word[StackLevels](_ => 0);
      keypad := new Byte[KeyCount](_ => 0);
      index, pc, sp, delayTimer, soundTimer := 0, 0, 0, 0, 0;
    }

    method Op00EE()
      requires Valid() && 1 <= sp <= StackLevels
      modifies this
      ensures State() == CoreExec(old(State()), Ret, 0)
    {
      sp := sp - 1;
      pc := stack[sp];
    }

    method Op1nnn(nnn: Address)
      requires Valid()
      modifies this
      ensures State() == CoreExec(old(State()), Jump(nnn), 0)
    {
      pc := nnn;
    }

    method Op2nnn(nnn: Address)
      requires Valid() && (sp) < StackLevels
      modifies this, stack
      ensures State() == CoreExec(old(State()), Call(nnn), 0)
    {
      stack[sp] := pc;
      sp := sp + 1;
      pc := nnn;
    }

    method Op3xkk(x: Nibble, kk: Byte)
      requires Valid()
      modifies this
      ensures State() == CoreExec(old(State()), SkipEqImm(x, kk), 0)
    {
      if registers[x] == kk {
        pc := (pc + 2) % 0x10000;
      }
    }

    method Op4xkk(x: Nibble, kk: Byte)
      requires Valid()
      modifies this
      ensures State() == CoreExec(old(State()), SkipNeImm(x, kk), 0)
    {
      if registers[x] != kk {
        pc := (pc + 2) % 0x10000;
      }
    }

    method Op5xy0(x: Nibble, y: Nibble)
      requires Valid()
      modifies this
      ensures State() == CoreExec(old(State()), SkipEqReg(x, y), 0)
    {
      if registers[x] == registers[y] {
        pc := (pc + 2) % 0x10000;
      }
    }

    method Op6xkk(x: Nibble, kk: Byte)
      requires Valid()
      modifies registers
      ensures State() == CoreExec(old(State()), LoadImm(x, kk), 0)
    {
      registers[x] := kk;
    }

    method Op7xkk(x: Nibble, kk: Byte)
      requires Valid()
      modifies registers
      ensures State() == CoreExec(old(State()), AddImm(x, kk), 0)
    {
      registers[x] := (registers[x] + kk) % 0x100;
    }

    method Op8xy0(x: Nibble, y: Nibble)
      requires Valid()
      modifies registers
      ensures State() == CoreExec(old(State()), Move(x, y), 0)
    {
      registers[x] := registers[y];
    }

    method Op8xy1(x: Nibble, y: Nibble)
      requires Valid()
      modifies registers
      ensures State() == CoreExec(old(State()), Or(x, y), 0)
    {
      registers[x] := BitOr(registers[x], registers[y]);
    }

    method Op8xy2(x: Nibble, y: Nibble)
      requires Valid()
      modifies registers
      ensures State() == CoreExec(old(State()), And(x, y), 0)
    {
      registers[x] := BitAnd(registers[x], registers[y]);
    }

    method Op8xy3(x: Nibble, y: Nibble)
      requires Valid()
      modifies registers
      ensures State() == CoreExec(old(State()), Xor(x, y), 0)
    {
      registers[x] := BitXor(registers[x], registers[y]);
    }

    method Op8xy4(x: Nibble, y: Nibble)
      requires Valid()
      modifies registers
      ensures State() == CoreExec(old(State()), Add(x, y), 0)
    {
      var sum: Byte := (registers[x] as int + registers[y]) % 0x100;
      registers[VF] := Flag(sum > 255);
      registers[x] := sum;
    }

    method Op8xy5(x: Nibble, y: Nibble)
      requires Valid()
      modifies registers
      ensures State() == CoreExec(old(State()), Sub(x, y), 0)
    {
      registers[VF] := Flag(registers[x] > registers[y]);
      registers[x] := (registers[x] as int - registers[y]) % 0x100;
    }

    method Op8xy7(x: Nibble, y: Nibble)
      requires Valid()
      modifies registers
      ensures State() == CoreExec(old(State()), SubN(x, y), 0)
    {
      registers[VF] := Flag(registers[y] > registers[x]);
      registers[x] := (registers[y] as int - registers[x]) % 0x100;
    }

    method Op9xy0(x: Nibble, y: Nibble)
      requires Valid()
      modifies this
      ensures State() == CoreExec(old(State()), SkipNeReg(x, y), 0)
    {
      if registers[x] != registers[y] {
        pc := (pc + 2) % 0x10000;
      }
    }

    method OpAnnn(nnn: Address)
      requires Valid()
      modifies this
      ensures State() == CoreExec(old(State()), LoadIndex(nnn), 0)
    {
      index := nnn;
    }

    method OpBnnn(nnn: Address)
      requires Valid()
      modifies this
      ensures State() == CoreExec(old(State()), JumpV0(nnn), 0)
    {
      pc := nnn + registers[V0];
    }

    /** `rnd` stands for the byte the clock-seeded generator would draw. */
    method OpCxkk(x: Nibble, kk: Byte, rnd: Byte)
      requires Valid()
      modifies registers
      ensures State() == CoreExec(old(State()), Random(x, kk), rnd)
    {
      registers[x] := BitAnd(rnd, kk);
    }

    method OpEx9E(x: Nibble)
      requires Valid() && registers[x] < KeyCount
      modifies this
      ensures State() == CoreExec(old(State()), SkipKey(x), 0)
    {
      var key := registers[x];
      if keypad[key] != 0 {
        pc := (pc + 2) % 0x10000;
      }
    }

    method OpExA1(x: Nibble)
      requires Valid() && registers[x] < KeyCount
      modifies this
      ensures State() == CoreExec(old(State()), SkipNotKey(x), 0)
    {
      var key := registers[x];
      if keypad[key] == 0 {
        pc := (pc + 2) % 0x10000;
      }
    }

    method OpFx07(x: Nibble)
      requires Valid()
      modifies registers
      ensures State() == CoreExec(old(State()), GetDelay(x), 0)
    {
      registers[x] := delayTimer;
    }

    /** Scans the keys in order; with none down, pc steps back so that the
        next cycle fetches this instruction again. */
    method OpFx0A(x: Nibble)
      requires Valid()
      modifies this, registers
      ensures State() == CoreExec(old(State()), WaitKey(x), 0)
    {
      var i := 0;
      while i < KeyCount
        invariant 0 <= i <= KeyCount
        invariant State() == old(State())
        invariant FirstPressed(keypad[..], i) == FirstPressed(keypad[..], 0)
      {
        if keypad[i] != 0 {
          registers[x] := i;
          return;
        }
        i := i + 1;
      }
      pc := (pc - 2) % 0x10000;
    }

    method OpFx15(x: Nibble)
      requires Valid()
      modifies this
      ensures State() == CoreExec(old(State()), SetDelay(x), 0)
    {
      delayTimer := registers[x];
    }

    method OpFx18(x: Nibble)
      requires Valid()
      modifies this
      ensures State() == CoreExec(old(State()), SetSound(x), 0)
    {
      soundTimer := registers[x];
    }

    method OpFx1E(x: Nibble)
      requires Valid()
      modifies this
      ensures State() == CoreExec(old(State()), AddIndex(x), 0)
    {
      index := (index + registers[x]) % 0x10000;
    }

    method OpFx29(x: Nibble)
      requires Valid()
      modifies this
      ensures State() == CoreExec(old(State()), FontSmall(x), 0)
    {
      var digit := registers[x];
      index := FontsetStartAddress + 5 * digit as int;
    }

    /** The copy loop of the constructors and of `LoadROM`. */
    method CopyIn(start: nat, bytes: seq<Byte>)
      requires Valid() && start + |bytes| <= MemorySize
      modifies memory
      ensures State() == old(State()).(memory := Copied(old(memory[..]), start, bytes))
    {
      var i := 0;
      while i < |bytes|
        invariant 0 <= i <= |bytes|
        invariant forall a :: 0 <= a < MemorySize ==>
          memory[a] == if start <= a < start + i then bytes[a - start] else old(memory[a])
      {
        memory[start + i] := bytes[i];
        i := i + 1;
      }
      assert memory[..] == Copied(old(memory[..]), start, bytes);
    }

    /** The copy loop of Fx55. */
    method StoreRegisters(x: Nibble)
      requires Valid() && TransferFits(State(), x)
      modifies memory
      ensures State() == AfterStore(old(State()), x)
    {
      var i := 0;
      while i <= x
        invariant 0 <= i <= x + 1
        invariant forall a :: 0 <= a < MemorySize ==>
          memory[a] == if index <= a < index + i then registers[a - index] else old(memory[a])
      {
        memory[index + i] := registers[i];
        i := i + 1;
      }
      assert memory[..] == AfterStore(old(State()), x).memory;
    }

    /** The copy loop of Fx65. */
    method LoadRegisters(x: Nibble)
      requires Valid() && TransferFits(State(), x)
      modifies registers
      ensures State() == AfterLoad(old(State()), x)
    {
      var i := 0;
      while i <= x
        invariant 0 <= i <= x + 1
        invariant forall r :: 0 <= r < RegisterCount ==>
          registers[r] == if r < i then memory[index + r] else old(registers[r])
      {
        registers[i] := memory[index + i];
        i := i + 1;
      }
      assert registers[..] == AfterLoad(old(State()), x).registers;
    }

    /** The last two steps of `Cycle`. */
    method TickTimers()
      requires Valid()
      modifies this
      ensures State() == AfterTick(old(State()))
    {
      if delayTimer > 0 {
        delayTimer := delayTimer - 1;
      }
      if soundTimer > 0 {
        soundTimer := soundTimer - 1;
      }
    }

    /** The handlers common to both revisions, selected by the decoded
        instruction; `rnd` is only used by Cxkk. */
    method Execute(i: Instr, rnd: Byte)
      requires Valid() && IsShared(i) && CoreDefined(State(), i)
      modifies this, registers, stack
      ensures State() == CoreExec(old(State()), i, rnd)
    {
      if i.Ret? { Op00EE(); }
      else if i.Jump? { Op1nnn(i.nnn); }
      else if i.Call? { Op2nnn(i.nnn); }
      else if i.SkipEqImm? { Op3xkk(i.x, i.kk); }
      else if i.SkipNeImm? { Op4xkk(i.x, i.kk); }
      else if i.SkipEqReg? { Op5xy0(i.x, i.y); }
      else if i.LoadImm? { Op6xkk(i.x, i.kk); }
      else if i.AddImm? { Op7xkk(i.x, i.kk); }
      else if i.SkipNeReg? { Op9xy0(i.x, i.y); }
      else if i.LoadIndex? { OpAnnn(i.nnn); }
      else if i.JumpV0? { OpBnnn(i.nnn); }
      else if i.Random? { OpCxkk(i.x, i.kk, rnd); }
      else if i.Move? { Op8xy0(i.x, i.y); }
      else if i.Or? { Op8xy1(i.x, i.y); }
      else if i.And? { Op8xy2(i.x, i.y); }
      else if i.Xor? { Op8xy3(i.x, i.y); }
      else if i.Add? { Op8xy4(i.x, i.y); }
      else if i.Sub? { Op8xy5(i.x, i.y); }
      else if i.SubN? { Op8xy7(i.x, i.y); }
      else if i.SkipKey? { OpEx9E(i.x); }
      else if i.SkipNotKey? { OpExA1(i.x); }
      else if i.GetDelay? { OpFx07(i.x); }
      else if i.WaitKey? { OpFx0A(i.x); }
      else if i.SetDelay? { OpFx15(i.x); }
      else if i.SetSound? { OpFx18(i.x); }
      else if i.AddIndex? { OpFx1E(i.x); }
      else { OpFx29(i.x); }
    }
  }
}
