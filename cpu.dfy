// cpu.go: the CPU record (registers, program counter, stack, timers) and the
// timer step that counts both timers down towards zero.
module Chip8Cpu {
  import opened Bytes
  import Util
  import Chip8Memory

  /** The value of every CPU field at one moment. VF has a field of its own,
      separate from register[15]. */
  datatype CpuState = CpuState(
    registerI: uint16,
    registerVF: uint16,
    delay: uint8,
    sound: uint8,
    programCounter: uint16,
    stackPointer: uint8,
    register: seq<uint8>,
    stack: seq<uint16>)
  {
    /** Sixteen registers and sixteen stack slots. */
    predicate WellFormed() {
      |register| == 16 && |stack| == 16
    }
  }

  /** newCPU: the program counter at the start of the program area, every
      other field zero. */
  const InitialState := CpuState(0, 0, 0, 0, Chip8Memory.ProgramAreaStart, 0, seq(16, _ => 0), seq(16, _ => 0))

  /** Reference definition of one timer tick: one less, but never below zero. */
  function TimerTick(t: uint8): uint8 {
    if t == 0 then 0 else t - 1
  }

  /** The state after one StepTimers: both timers tick independently. */
  function Ticked(s: CpuState): CpuState {
    s.(delay := TimerTick(s.delay), sound := TimerTick(s.sound))
  }

  /** The state after k StepTimers calls. */
  function TickedN(s: CpuState, k: nat): CpuState {
    if k == 0 then s else Ticked(TickedN(s, k - 1))
  }

  /** Counting down saturates: k ticks take a timer t to max(0, t - k), and
      leave every other field as it was. */
  lemma {:induction false} TicksSaturate(s: CpuState, k: nat)
    ensures TickedN(s, k) == s.(delay := Saturated(s.delay - k), sound := Saturated(s.sound - k))
  {
    if k > 0 {
      TicksSaturate(s, k - 1);
    }
  }

  function Saturated(t: int): uint8
    requires t < 0x100
  {
    if t < 0 then 0 else t
  }

  class CPU {
    var registerI: uint16
    var registerVF: uint16
    var delay: uint8
    var sound: uint8
    var programCounter: uint16
    var stackPointer: uint8
    var register: array<uint8>
    var stack: array<uint16>

    ghost predicate Valid()
      reads this
    {
      register.Length == 16 && stack.Length == 16 && (register as object) != stack
    }

    /** The CPU's fields as a value. */
    ghost function View(): (s: CpuState)
      reads this, register, stack
      ensures Valid() ==> s.WellFormed()
    {
      CpuState(registerI, registerVF, delay, sound, programCounter, stackPointer, register[..], stack[..])
    }

    /** newCPU */
    constructor ()
      ensures Valid() && fresh(register) && fresh(stack)
      ensures View() == InitialState
    {
      registerI, registerVF := 0, 0;
      delay, sound := 0, 0;
      programCounter := Chip8Memory.ProgramAreaStart;
      stackPointer := 0;
      register := new uint8[16](_ => 0);
      stack := new uint16[16](_ => 0);
    }

    /** StepTimers: each non-zero timer becomes MaxOf(0, timer - 1); a zero
        timer is left alone. No other field changes. */
    method StepTimers()
      requires Valid()
      modifies this
      ensures Valid() && register == old(register) && stack == old(stack)
      ensures View() == Ticked(old(View()))
    {
      if delay != 0 {
        var vars := [0, SubByte(delay, 1)];
        delay := Util.MaxOf(vars);
        assert vars[1] <= delay;
      }
      if sound != 0 {
        var vars := [0, SubByte(sound, 1)];
        sound := Util.MaxOf(vars);
        assert vars[1] <= sound;
      }
    }
  }
}
