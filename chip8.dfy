// chip8.go: the virtual machine that owns a CPU, a screen and a memory.
module Chip8Vm {
  import opened Chip8Cpu
  import opened Chip8Memory
  import opened Chip8Display

  class VM {
    var cpu: CPU
    var screen: Screen
    var memory: Memory

    /** Each part is well formed, and the register file and RAM are two
        different arrays. */
    ghost predicate Valid()
      reads this, cpu, screen, memory
    {
      && cpu.Valid() && screen.Valid() && memory.Valid()
      && cpu.register != memory.ram
    }

    /** InitVM: a fresh CPU in its power-on state, a fresh memory holding only
        the font, and a fresh blank screen. */
    constructor InitVM()
      ensures Valid()
      ensures fresh(cpu) && fresh(cpu.register) && fresh(cpu.stack)
      ensures fresh(memory) && fresh(memory.ram) && fresh(screen) && fresh(screen.display)
      ensures cpu.View() == InitialState
      ensures memory.ram[..80] == Fontset && memory.romSize == 0
      ensures forall a :: 80 <= a < RAMSize ==> memory.ram[a] == 0
      ensures screen.IsBlank()
    {
      cpu := new CPU();
      memory := new Memory();
      screen := new Screen();
    }
  }
}
