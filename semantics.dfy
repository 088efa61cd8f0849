// The effect of each instruction handler of opcodes.go, as a function of the
// CPU state (and of RAM or the key lookup where the handler reads them), with
// the properties the handlers promise. The handlers themselves, which update
// the VM in place, are in module Opcodes and are proved against these.
//
// As in the source: no handler advances the program counter past its own
// instruction (only the skips add 2), the carry/borrow flag goes to the
// separate registerVF, and a Go index out of range is a panic.
module Semantics {
  import opened Bytes
  import opened Chip8Cpu
  import opened Keys
  import Peripheral

  /** A handler either completes, or panics on an index out of range;
      `state` is the state at that point. */
  datatype Outcome<+T> = Completed(state: T) | Panicked(state: T)

  type Cpu = s: CpuState | s.WellFormed()
    witness InitialState

  // ---- control flow ----

  /** 00EE RET: PC := stack[SP], then SP := SP - 1 (byte arithmetic, so 0
      becomes 255). Reading stack[SP] with SP >= 16 panics. */
  function Ret(s: Cpu): Outcome<Cpu> {
    if s.stackPointer < 16 then
      Completed(s.(programCounter := s.stack[s.stackPointer], stackPointer := SubByte(s.stackPointer, 1)))
    else
      Panicked(s)
  }

  /** 1nnn JP: PC := nnn. */
  function Jp(s: Cpu, nnn: uint16): Cpu {
    s.(programCounter := nnn)
  }

  /** 2nnn CALL: SP := SP + 1 (byte arithmetic), then stack[SP] := PC, then
      PC := nnn. Writing stack[SP] with the new SP >= 16 panics after the
      increment. */
  function Call(s: Cpu, nnn: uint16): Outcome<Cpu> {
    var sp := AddByte(s.stackPointer, 1);
    if sp < 16 then
      Completed(s.(stackPointer := sp, stack := s.stack[sp := s.programCounter], programCounter := nnn))
    else
      Panicked(s.(stackPointer := sp))
  }

  /** PC := PC + 2 (modulo 2^16) when the condition holds. */
  function SkipIf(s: Cpu, condition: bool): Cpu {
    if condition then s.(programCounter := AddWord(s.programCounter, 2)) else s
  }

  /** 3xkk SE Vx, byte */
  function Se(s: Cpu, x: Nibble, kk: uint8): Cpu {
    SkipIf(s, s.register[x] == kk)
  }

  /** 4xkk SNE Vx, byte */
  function SeNot(s: Cpu, x: Nibble, kk: uint8): Cpu {
    SkipIf(s, s.register[x] != kk)
  }

  /** 5xy0 SE Vx, Vy */
  function SeReg(s: Cpu, x: Nibble, y: Nibble): Cpu {
    SkipIf(s, s.register[x] == s.register[y])
  }

  /** 9xy0 SNE Vx, Vy */
  function Sne(s: Cpu, x: Nibble, y: Nibble): Cpu {
    SkipIf(s, s.register[x] != s.register[y])
  }

  /** Bnnn JP V0, addr: PC := addr + V0 in uint16 arithmetic. */
  function JpAdd(s: Cpu, addr: uint16): Cpu {
    s.(programCounter := AddWord(addr, s.register[0]))
  }

  // ---- register arithmetic ----

  function SetRegister(s: Cpu, x: Nibble, v: uint8): Cpu {
    s.(register := s.register[x := v])
  }

  /** 6xkk LD Vx, byte */
  function Ld(s: Cpu, x: Nibble, kk: uint8): Cpu {
    SetRegister(s, x, kk)
  }

  /** 7xkk ADD Vx, byte: no flag. */
  function Add(s: Cpu, x: Nibble, kk: uint8): Cpu {
    SetRegister(s, x, AddByte(s.register[x], kk))
  }

  /** 8xy0 LD Vx, Vy */
  function LdReg(s: Cpu, x: Nibble, y: Nibble): Cpu {
    SetRegister(s, x, s.register[y])
  }

  /** 8xy1 OR Vx, Vy */
  function Or(s: Cpu, x: Nibble, y: Nibble): Cpu {
    SetRegister(s, x, OrByte(s.register[x], s.register[y]))
  }

  /** 8xy2 AND Vx, Vy */
  function And(s: Cpu, x: Nibble, y: Nibble): Cpu {
    SetRegister(s, x, AndByte(s.register[x], s.register[y]))
  }

  /** 8xy3 XOR Vx, Vy */
  function Xor(s: Cpu, x: Nibble, y: Nibble): Cpu {
    SetRegister(s, x, XorByte(s.register[x], s.register[y]))
  }

  /** 8xy4 ADD Vx, Vy: VF := 1 when the 16-bit sum exceeds 255, else 0; then
      Vx := Vx + Vy in byte arithmetic. */
  function AddReg(s: Cpu, x: Nibble, y: Nibble): Cpu {
    var vf := if s.register[x] as int + s.register[y] as int > 255 then 1 else 0;
    s.(registerVF := vf, register := s.register[x := AddByte(s.register[x], s.register[y])])
  }

  /** 8xy5 SUB Vx, Vy: VF := 1 when Vx > Vy (strictly), else 0; then
      Vx := Vx - Vy in byte arithmetic. */
  function SubReg(s: Cpu, x: Nibble, y: Nibble): Cpu {
    var vf := if s.register[x] > s.register[y] then 1 else 0;
    s.(registerVF := vf, register := s.register[x := SubByte(s.register[x], s.register[y])])
  }

  /** 8xy6 SHR Vx: VF := Vx & 1; Vx := Vx / 2. The y field is not used. */
  function Shr(s: Cpu, x: Nibble, y: Nibble): Cpu {
    var vf := if AndByte(s.register[x], 1) == 1 then 1 else 0;
    s.(registerVF := vf, register := s.register[x := s.register[x] / 2])
  }

  /** Cxkk RND Vx, byte, with the random byte drawn from [0, 256) given. */
  function Rnd(s: Cpu, x: Nibble, kk: uint8, random: uint8): Cpu {
    SetRegister(s, x, AndByte(random, kk))
  }

  // ---- address register and timers ----

  /** Annn LD I, addr */
  function LdI(s: Cpu, addr: uint16): Cpu {
    s.(registerI := addr)
  }

  /** Fx1E ADD I, Vx: I := Vx + I in uint16 arithmetic; VF is not touched. */
  function AddI(s: Cpu, x: Nibble): Cpu {
    s.(registerI := AddWord(s.register[x], s.registerI))
  }

  /** Fx07 LD Vx, DT */
  function LdDtInVx(s: Cpu, x: Nibble): Cpu {
    SetRegister(s, x, s.delay)
  }

  /** Fx15 LD DT, Vx */
  function LdDt(s: Cpu, x: Nibble): Cpu {
    s.(delay := s.register[x])
  }

  /** Fx18 LD ST, Vx */
  function LdSt(s: Cpu, x: Nibble): Cpu {
    s.(sound := s.register[x])
  }

  // ---- keys: `key` is what Chip8Key returned for the next key event ----

  /** Ex9E SKP Vx: an unsupported key changes nothing; otherwise skip when Vx
      equals the key's value. */
  function Skp(s: Cpu, x: Nibble, key: Peripheral.Chip8KeyResult): Cpu {
    if key.notAvailable then s else SkipIf(s, s.register[x] == key.value)
  }

  /** ExA1 SKNP Vx: as SKP with the comparison negated. */
  function Sknp(s: Cpu, x: Nibble, key: Peripheral.Chip8KeyResult): Cpu {
    if key.notAvailable then s else SkipIf(s, s.register[x] != key.value)
  }

  /** Fx0A LD Vx, K: Vx := the value Chip8Key returned, its error ignored. */
  function LdKey(s: Cpu, x: Nibble, key: Peripheral.Chip8KeyResult): Cpu {
    SetRegister(s, x, key.value)
  }

  // ---- registers and memory ----

  /** Fx55 LD [I], Vx: every pass of the loop over V0..Vx writes the same
      address I, so only ram[I] changes, and it ends holding Vx. Indexing RAM
      at I >= its size panics before anything is written. */
  function StoreRegisters(s: Cpu, ram: seq<uint8>, x: Nibble): Outcome<seq<uint8>> {
    if s.registerI < |ram| then Completed(ram[s.registerI := s.register[x]]) else Panicked(ram)
  }

  /** Fx65 LD Vx, [I]: every pass reads the same address I, so V0..Vx all
      receive ram[I]. */
  function LoadRegisters(s: Cpu, ram: seq<uint8>, x: Nibble): Outcome<Cpu> {
    if s.registerI < |ram| then
      Completed(s.(register := seq(16, r requires 0 <= r < 16 => if r <= x then ram[s.registerI] else s.register[r])))
    else
      Panicked(s)
  }

  // ==== properties ====

  /** A call followed by a return restores PC and SP whenever SP + 1 is a
      stack slot; the only trace left is the return address in that slot. */
  lemma CallThenRet(s: Cpu, nnn: uint16)
    requires s.stackPointer + 1 < 16
    ensures Call(s, nnn).Completed?
    ensures Ret(Call(s, nnn).state).Completed?
    ensures Ret(Call(s, nnn).state).state
            == s.(stack := s.stack[s.stackPointer + 1 := s.programCounter])
  {
  }

  /** CALL panics exactly when the incremented SP is 16..255; from SP = 255
      the increment wraps to 0 and the call goes into slot 0. */
  lemma CallPanicsIff(s: Cpu, nnn: uint16)
    ensures Call(s, nnn).Panicked? <==> 15 <= s.stackPointer < 255
    ensures s.stackPointer == 255 ==> Call(s, nnn).state.stackPointer == 0 && Call(s, nnn).state.stack[0] == s.programCounter
  {
  }

  /** RET panics exactly when SP >= 16; from SP = 0 it reads slot 0 and SP
      wraps to 255. */
  lemma RetFromSlotZero(s: Cpu)
    ensures Ret(s).Panicked? <==> s.stackPointer >= 16
    ensures s.stackPointer == 0 ==>
              Ret(s).state.programCounter == s.stack[0] && Ret(s).state.stackPointer == 255
  {
  }

  /** The skip instructions add exactly 2 to PC when their condition holds
      and change nothing otherwise; on one state exactly one of SE and SNE
      (immediate) skips, and likewise for the register forms. */
  lemma SkipsAddTwo(s: Cpu, x: Nibble, y: Nibble, kk: uint8)
    ensures Se(s, x, kk) == (if s.register[x] == kk then s.(programCounter := (s.programCounter + 2) % 0x1_0000) else s)
    ensures SeNot(s, x, kk) == (if s.register[x] != kk then s.(programCounter := (s.programCounter + 2) % 0x1_0000) else s)
    ensures SeReg(s, x, y) == (if s.register[x] == s.register[y] then s.(programCounter := (s.programCounter + 2) % 0x1_0000) else s)
    ensures Sne(s, x, y) == (if s.register[x] != s.register[y] then s.(programCounter := (s.programCounter + 2) % 0x1_0000) else s)
    ensures (Se(s, x, kk) == s) != (SeNot(s, x, kk) == s)
    ensures (SeReg(s, x, y) == s) != (Sne(s, x, y) == s)
  {
  }

  /** LD, ADD, LD Vx Vy, OR, AND and XOR change register x and nothing else:
      not VF, not PC. */
  lemma RegisterOpsTouchOnlyVx(s: Cpu, x: Nibble, y: Nibble, kk: uint8)
    ensures Ld(s, x, kk) == s.(register := s.register[x := kk])
    ensures Add(s, x, kk) == s.(register := s.register[x := (s.register[x] + kk) % 256])
    ensures LdReg(s, x, y) == s.(register := s.register[x := s.register[y]])
    ensures Or(s, x, y) == s.(register := s.register[x := OrByte(s.register[x], s.register[y])])
    ensures And(s, x, y) == s.(register := s.register[x := AndByte(s.register[x], s.register[y])])
    ensures Xor(s, x, y) == s.(register := s.register[x := XorByte(s.register[x], s.register[y])])
  {
  }

  /** XOR Vx, Vy executed twice gives back the state it started from when x
      and y are different registers. */
  lemma XorTwiceRestores(s: Cpu, x: Nibble, y: Nibble)
    requires x != y
    ensures Xor(Xor(s, x, y), x, y) == s
  {
    XorInvolutive(s.register[x], s.register[y]);
    assert Xor(Xor(s, x, y), x, y).register == s.register;
  }

  /** ADD Vx, Vy: VF is 1 exactly when Vx + Vy > 255, and the new Vx together
      with VF gives back the full sum. Only Vx and VF change. */
  lemma AddRegCarry(s: Cpu, x: Nibble, y: Nibble)
    ensures var t := AddReg(s, x, y);
            && (t.registerVF == 1 <==> s.register[x] as int + s.register[y] as int > 255)
            && (t.registerVF == 0 || t.registerVF == 1)
            && t.register[x] as int + 256 * t.registerVF == s.register[x] as int + s.register[y] as int
            && t == s.(registerVF := t.registerVF, register := s.register[x := t.register[x]])
  {
  }

  /** SUB Vx, Vy: VF is 1 exactly when Vx > Vy, so equal operands give VF = 0
      although nothing was borrowed; the new Vx is the difference modulo 256.
      Only Vx and VF change. */
  lemma SubRegBorrow(s: Cpu, x: Nibble, y: Nibble)
    ensures var t := SubReg(s, x, y);
            && (t.registerVF == 1 <==> s.register[x] > s.register[y])
            && (t.registerVF == 0 || t.registerVF == 1)
            && (s.register[x] >= s.register[y] ==> t.register[x] == s.register[x] as int - s.register[y] as int)
            && (s.register[x] < s.register[y] ==> t.register[x] == s.register[x] as int - s.register[y] as int + 256)
            && (s.register[x] == s.register[y] ==> t.registerVF == 0 && t.register[x] == 0)
            && t == s.(registerVF := t.registerVF, register := s.register[x := t.register[x]])
  {
  }

  /** SHR Vx: VF is the bit shifted out, so 2 * new Vx + VF is the old Vx;
      the y operand makes no difference. */
  lemma ShrShiftsOutLowBit(s: Cpu, x: Nibble, y: Nibble, y': Nibble)
    ensures var t := Shr(s, x, y);
            && t.registerVF == s.register[x] % 2
            && 2 * t.register[x] + t.registerVF == s.register[x]
            && t == s.(registerVF := t.registerVF, register := s.register[x := t.register[x]])
    ensures Shr(s, x, y) == Shr(s, x, y')
  {
    LowBit(s.register[x]);
  }

  /** RND Vx, kk: whatever random byte is drawn, Vx has no bit set outside kk;
      with kk = 0xFF it is the random byte itself, with kk = 0 it is 0. */
  lemma RndStaysInsideMask(s: Cpu, x: Nibble, kk: uint8, random: uint8)
    ensures OrByte(Rnd(s, x, kk, random).register[x], kk) == kk
    ensures Rnd(s, x, kk, random).register[x] <= kk
    ensures Rnd(s, x, 0xFF, random).register[x] == random
    ensures Rnd(s, x, 0, random).register[x] == 0
  {
    OrAndBounds(random, kk);
    Absorption(random, kk);
    AndMask(random);
  }

  /** JP V0, addr and ADD I, Vx wrap modulo 2^16; for a 12-bit address the
      jump target is simply addr + V0. ADD I leaves VF alone. */
  lemma AddressArithmetic(s: Cpu, addr: uint16, x: Nibble)
    ensures JpAdd(s, addr).programCounter == (addr + s.register[0]) % 0x1_0000
    ensures addr < 0x1000 ==> JpAdd(s, addr).programCounter == addr + s.register[0]
    ensures AddI(s, x).registerI == (s.registerI + s.register[x]) % 0x1_0000
    ensures AddI(s, x).registerVF == s.registerVF
  {
  }

  /** LD DT, Vx followed by LD Vy, DT copies Vx into Vy through the delay
      timer; LD ST sets only the sound timer. */
  lemma DelayTimerRoundTrip(s: Cpu, x: Nibble, y: Nibble)
    ensures LdDtInVx(LdDt(s, x), y).register[y] == s.register[x]
    ensures LdDtInVx(LdDt(s, x), y) == s.(delay := s.register[x], register := s.register[y := s.register[x]])
    ensures LdSt(s, x) == s.(sound := s.register[x])
  {
  }

  /** LD [I], Vx never advances the address: it panics exactly when I is past
      the end of RAM, and otherwise only ram[I] changes, to Vx, so the
      addresses I+1 .. I+x keep their old bytes. */
  lemma StoreRegistersWritesOneByte(s: Cpu, ram: seq<uint8>, x: Nibble)
    ensures StoreRegisters(s, ram, x).Panicked? <==> s.registerI >= |ram|
    ensures StoreRegisters(s, ram, x).Panicked? ==> StoreRegisters(s, ram, x).state == ram
    ensures var out := StoreRegisters(s, ram, x).state;
            && |out| == |ram|
            && (s.registerI < |ram| ==> out[s.registerI] == s.register[x])
            && forall a :: 0 <= a < |ram| && a != s.registerI ==> out[a] == ram[a]
  {
  }

  /** LD Vx, [I] never advances the address: V0..Vx all receive ram[I],
      V(x+1)..V15 and every other field keep their values. */
  lemma LoadRegistersReadsOneByte(s: Cpu, ram: seq<uint8>, x: Nibble)
    ensures LoadRegisters(s, ram, x).Panicked? <==> s.registerI >= |ram|
    ensures LoadRegisters(s, ram, x).Panicked? ==> LoadRegisters(s, ram, x).state == s
    ensures s.registerI < |ram| ==>
              var t := LoadRegisters(s, ram, x).state;
              && (forall r :: 0 <= r <= x ==> t.register[r] == ram[s.registerI])
              && (forall r :: x < r < 16 ==> t.register[r] == s.register[r])
              && t == s.(register := t.register)
  {
  }

  /** Whatever map the lookup came from: an unsupported key makes LD Vx, K
      store 0 and SKP / SKNP do nothing; a supported one makes LD Vx, K store
      its value. */
  lemma KeyLookupOutcomes(s: Cpu, x: Nibble, key: Peripheral.Chip8KeyResult)
    ensures key.notAvailable ==> LdKey(s, x, key).register[x] == 0 && Skp(s, x, key) == s && Sknp(s, x, key) == s
    ensures !key.notAvailable ==> LdKey(s, x, key).register[x] == key.value
    ensures LdKey(s, x, key) == s.(register := s.register[x := LdKey(s, x, key).register[x]])
  {
  }

  /** With the standard key map installed: LD Vx, K stores the digit of the
      hex key pressed (0 for any other key), and SKP / SKNP compare Vx with
      that digit; an unmapped key makes both skips do nothing. */
  lemma KeyInstructionsWithLayout(s: Cpu, x: Nibble, d: Nibble, other: Code)
    requires forall e: Nibble :: HexKeyCode(e) != other
    ensures LdKey(s, x, Peripheral.Chip8Key(KeyboardMapOf(Layout), HexKeyCode(d))).register[x] == d
    ensures LdKey(s, x, Peripheral.Chip8Key(KeyboardMapOf(Layout), other)).register[x] == 0
    ensures Skp(s, x, Peripheral.Chip8Key(KeyboardMapOf(Layout), HexKeyCode(d))) != s <==> s.register[x] == d
    ensures Sknp(s, x, Peripheral.Chip8Key(KeyboardMapOf(Layout), HexKeyCode(d))) != s <==> s.register[x] != d
    ensures Skp(s, x, Peripheral.Chip8Key(KeyboardMapOf(Layout), other)) == s
    ensures Sknp(s, x, Peripheral.Chip8Key(KeyboardMapOf(Layout), other)) == s
  {
    Peripheral.Chip8KeyAfterInit(other);
  }
}
