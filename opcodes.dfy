// opcodes.go: the instruction handlers, each updating the VM in place. Every
// handler is proved to leave the CPU (and RAM, for LD [I], Vx) exactly as the
// matching function of module Semantics says; the `modifies` clause of each
// says which part of the VM it may touch at all.
//
// x and y are the 4-bit register fields of the instruction; nnn/addr is the
// instruction's address field, passed as a uint16; kk is its low byte.
module Opcodes {
  import opened Bytes
  import opened Chip8Cpu
  import opened Chip8Vm
  import Semantics
  import Peripheral

  /** 00E0 CLS: clears the screen's grid. */
  method Cls(vm: VM)
    requires vm.Valid()
    modifies vm.screen.display
    ensures vm.Valid() && vm.screen.IsBlank()
  {
    var scr := vm.screen;
    scr.ClearDisplay();
  }

  /** 00EE RET */
  method Ret(vm: VM) returns (panicked: bool)
    requires vm.Valid()
    modifies vm.cpu
    ensures vm.Valid()
    ensures vm.cpu.register == old(vm.cpu.register) && vm.cpu.stack == old(vm.cpu.stack)
    ensures panicked == Semantics.Ret(old(vm.cpu.View())).Panicked?
    ensures vm.cpu.View() == Semantics.Ret(old(vm.cpu.View())).state
  {
    var cpu := vm.cpu;
    if cpu.stackPointer >= cpu.stack.Length {
      return true;
    }
    cpu.programCounter := cpu.stack[cpu.stackPointer];
    cpu.stackPointer := SubByte(cpu.stackPointer, 1);
    panicked := false;
  }

  /** 1nnn JP addr */
  method Jp(vm: VM, nnn: uint16)
    requires vm.Valid()
    modifies vm.cpu
    ensures vm.Valid()
    ensures vm.cpu.register == old(vm.cpu.register) && vm.cpu.stack == old(vm.cpu.stack)
    ensures vm.cpu.View() == Semantics.Jp(old(vm.cpu.View()), nnn)
  {
    var cpu := vm.cpu;
    cpu.programCounter := nnn;
  }

  /** 2nnn CALL addr */
  method Call(vm: VM, nnn: uint16) returns (panicked: bool)
    requires vm.Valid()
    modifies vm.cpu, vm.cpu.stack
    ensures vm.Valid()
    ensures vm.cpu.register == old(vm.cpu.register) && vm.cpu.stack == old(vm.cpu.stack)
    ensures panicked == Semantics.Call(old(vm.cpu.View()), nnn).Panicked?
    ensures vm.cpu.View() == Semantics.Call(old(vm.cpu.View()), nnn).state
  {
    var cpu := vm.cpu;
    cpu.stackPointer := AddByte(cpu.stackPointer, 1);
    if cpu.stackPointer >= cpu.stack.Length {
      return true;
    }
    cpu.stack[cpu.stackPointer] := cpu.programCounter;
    cpu.programCounter := nnn;
    panicked := false;
  }

  /** 3xkk SE Vx, byte */
  method Se(vm: VM, x: Nibble, kk: uint8)
    requires vm.Valid()
    modifies vm.cpu
    ensures vm.Valid()
    ensures vm.cpu.register == old(vm.cpu.register) && vm.cpu.stack == old(vm.cpu.stack)
    ensures vm.cpu.View() == Semantics.Se(old(vm.cpu.View()), x, kk)
  {
    var cpu := vm.cpu;
    if cpu.register[x] == kk {
      cpu.programCounter := AddWord(cpu.programCounter, 2);
    }
  }

  /** 4xkk SNE Vx, byte */
  method SeNot(vm: VM, x: Nibble, kk: uint8)
    requires vm.Valid()
    modifies vm.cpu
    ensures vm.Valid()
    ensures vm.cpu.register == old(vm.cpu.register) && vm.cpu.stack == old(vm.cpu.stack)
    ensures vm.cpu.View() == Semantics.SeNot(old(vm.cpu.View()), x, kk)
  {
    var cpu := vm.cpu;
    if cpu.register[x] != kk {
      cpu.programCounter := AddWord(cpu.programCounter, 2);
    }
  }

  /** 5xy0 SE Vx, Vy */
  method SeReg(vm: VM, x: Nibble, y: Nibble)
    requires vm.Valid()
    modifies vm.cpu
    ensures vm.Valid()
    ensures vm.cpu.register == old(vm.cpu.register) && vm.cpu.stack == old(vm.cpu.stack)
    ensures vm.cpu.View() == Semantics.SeReg(old(vm.cpu.View()), x, y)
  {
    var cpu := vm.cpu;
    if cpu.register[x] == cpu.register[y] {
      cpu.programCounter := AddWord(cpu.programCounter, 2);
    }
  }

  /** 6xkk LD Vx, byte */
  method Ld(vm: VM, vx: Nibble, data: uint8)
    requires vm.Valid()
    modifies vm.cpu.register
    ensures vm.Valid()
    ensures vm.cpu.View() == Semantics.Ld(old(vm.cpu.View()), vx, data)
  {
    var cpu := vm.cpu;
    cpu.register[vx] := data;
  }

  /** 7xkk ADD Vx, byte */
  method Add(vm: VM, vx: Nibble, data: uint8)
    requires vm.Valid()
    modifies vm.cpu.register
    ensures vm.Valid()
    ensures vm.cpu.View() == Semantics.Add(old(vm.cpu.View()), vx, data)
  {
    var cpu := vm.cpu;
    cpu.register[vx] := AddByte(cpu.register[vx], data);
  }

  /** 8xy0 LD Vx, Vy */
  method LdReg(vm: VM, vx: Nibble, vy: Nibble)
    requires vm.Valid()
    modifies vm.cpu.register
    ensures vm.Valid()
    ensures vm.cpu.View() == Semantics.LdReg(old(vm.cpu.View()), vx, vy)
  {
    var cpu := vm.cpu;
    cpu.register[vx] := cpu.register[vy];
  }

  /** 8xy1 OR Vx, Vy */
  method Or(vm: VM, vx: Nibble, vy: Nibble)
    requires vm.Valid()
    modifies vm.cpu.register
    ensures vm.Valid()
    ensures vm.cpu.View() == Semantics.Or(old(vm.cpu.View()), vx, vy)
  {
    var cpu := vm.cpu;
    var vxData := cpu.register[vx];
    var vyData := cpu.register[vy];
    cpu.register[vx] := OrByte(vxData, vyData);
  }

  /** 8xy2 AND Vx, Vy */
  method And(vm: VM, vx: Nibble, vy: Nibble)
    requires vm.Valid()
    modifies vm.cpu.register
    ensures vm.Valid()
    ensures vm.cpu.View() == Semantics.And(old(vm.cpu.View()), vx, vy)
  {
    var cpu := vm.cpu;
    var vxData := cpu.register[vx];
    var vyData := cpu.register[vy];
    cpu.register[vx] := AndByte(vxData, vyData);
  }

  /** 8xy3 XOR Vx, Vy */
  method Xor(vm: VM, vx: Nibble, vy: Nibble)
    requires vm.Valid()
    modifies vm.cpu.register
    ensures vm.Valid()
    ensures vm.cpu.View() == Semantics.Xor(old(vm.cpu.View()), vx, vy)
  {
    var cpu := vm.cpu;
    var vxData := cpu.register[vx];
    var vyData := cpu.register[vy];
    cpu.register[vx] := XorByte(vxData, vyData);
  }

  /** 8xy4 ADD Vx, Vy, VF := carry */
  method AddReg(vm: VM, vx: Nibble, vy: Nibble)
    requires vm.Valid()
    modifies vm.cpu, vm.cpu.register
    ensures vm.Valid()
    ensures vm.cpu.register == old(vm.cpu.register) && vm.cpu.stack == old(vm.cpu.stack)
    ensures vm.cpu.View() == Semantics.AddReg(old(vm.cpu.View()), vx, vy)
  {
    var cpu := vm.cpu;
    var tmp := cpu.register[vx] as int + cpu.register[vy] as int;
    var max := 255;
    if tmp > max {
      cpu.registerVF := 1;
    } else {
      cpu.registerVF := 0;
    }
    cpu.register[vx] := AddByte(cpu.register[vx], cpu.register[vy]);
  }

  /** 8xy5 SUB Vx, Vy, VF := Vx > Vy */
  method SubReg(vm: VM, vx: Nibble, vy: Nibble)
    requires vm.Valid()
    modifies vm.cpu, vm.cpu.register
    ensures vm.Valid()
    ensures vm.cpu.register == old(vm.cpu.register) && vm.cpu.stack == old(vm.cpu.stack)
    ensures vm.cpu.View() == Semantics.SubReg(old(vm.cpu.View()), vx, vy)
  {
    var cpu := vm.cpu;
    if cpu.register[vx] > cpu.register[vy] {
      cpu.registerVF := 1;
    } else {
      cpu.registerVF := 0;
    }
    cpu.register[vx] := SubByte(cpu.register[vx], cpu.register[vy]);
  }

  /** 8xy6 SHR Vx {, Vy} */
  method Shr(vm: VM, vx: Nibble, vy: Nibble)
    requires vm.Valid()
    modifies vm.cpu, vm.cpu.register
    ensures vm.Valid()
    ensures vm.cpu.register == old(vm.cpu.register) && vm.cpu.stack == old(vm.cpu.stack)
    ensures vm.cpu.View() == Semantics.Shr(old(vm.cpu.View()), vx, vy)
  {
    var cpu := vm.cpu;
    if AndByte(cpu.register[vx], 1) == 1 {
      cpu.registerVF := 1;
    } else {
      cpu.registerVF := 0;
    }
    cpu.register[vx] := cpu.register[vx] / 2;
  }

  /** 9xy0 SNE Vx, Vy */
  method Sne(vm: VM, vx: Nibble, vy: Nibble)
    requires vm.Valid()
    modifies vm.cpu
    ensures vm.Valid()
    ensures vm.cpu.register == old(vm.cpu.register) && vm.cpu.stack == old(vm.cpu.stack)
    ensures vm.cpu.View() == Semantics.Sne(old(vm.cpu.View()), vx, vy)
  {
    var cpu := vm.cpu;
    if cpu.register[vx] != cpu.register[vy] {
      cpu.programCounter := AddWord(cpu.programCounter, 2);
    }
  }

  /** Annn LD I, addr */
  method LdI(vm: VM, addr: uint16)
    requires vm.Valid()
    modifies vm.cpu
    ensures vm.Valid()
    ensures vm.cpu.register == old(vm.cpu.register) && vm.cpu.stack == old(vm.cpu.stack)
    ensures vm.cpu.View() == Semantics.LdI(old(vm.cpu.View()), addr)
  {
    var cpu := vm.cpu;
    cpu.registerI := addr;
  }

  /** Bnnn JP V0, addr */
  method JpAdd(vm: VM, addr: uint16)
    requires vm.Valid()
    modifies vm.cpu
    ensures vm.Valid()
    ensures vm.cpu.register == old(vm.cpu.register) && vm.cpu.stack == old(vm.cpu.stack)
    ensures vm.cpu.View() == Semantics.JpAdd(old(vm.cpu.View()), addr)
  {
    var cpu := vm.cpu;
    cpu.programCounter := AddWord(addr, cpu.register[0]);
  }

  /** Cxkk RND Vx, byte; `random` is the byte RandInRange(0, 256) drew. */
  method Rnd(vm: VM, vx: Nibble, kk: uint8, random: uint8)
    requires vm.Valid()
    modifies vm.cpu.register
    ensures vm.Valid()
    ensures vm.cpu.View() == Semantics.Rnd(old(vm.cpu.View()), vx, kk, random)
  {
    var cpu := vm.cpu;
    cpu.register[vx] := AndByte(random, kk);
  }

  /** Ex9E SKP Vx; `key` is Chip8Key of the next key event's code. */
  method Skp(vm: VM, vx: Nibble, key: Peripheral.Chip8KeyResult)
    requires vm.Valid()
    modifies vm.cpu
    ensures vm.Valid()
    ensures vm.cpu.register == old(vm.cpu.register) && vm.cpu.stack == old(vm.cpu.stack)
    ensures vm.cpu.View() == Semantics.Skp(old(vm.cpu.View()), vx, key)
  {
    var cpu := vm.cpu;
    var vxData := cpu.register[vx];
    if key.notAvailable {
      return;
    }
    if vxData == key.value {
      cpu.programCounter := AddWord(cpu.programCounter, 2);
    }
  }

  /** ExA1 SKNP Vx; `key` is Chip8Key of the next key event's code. */
  method Sknp(vm: VM, vx: Nibble, key: Peripheral.Chip8KeyResult)
    requires vm.Valid()
    modifies vm.cpu
    ensures vm.Valid()
    ensures vm.cpu.register == old(vm.cpu.register) && vm.cpu.stack == old(vm.cpu.stack)
    ensures vm.cpu.View() == Semantics.Sknp(old(vm.cpu.View()), vx, key)
  {
    var cpu := vm.cpu;
    var vxData := cpu.register[vx];
    if key.notAvailable {
      return;
    }
    if vxData != key.value {
      cpu.programCounter := AddWord(cpu.programCounter, 2);
    }
  }

  /** Fx07 LD Vx, DT */
  method LdDtInVx(vm: VM, vx: Nibble)
    requires vm.Valid()
    modifies vm.cpu.register
    ensures vm.Valid()
    ensures vm.cpu.View() == Semantics.LdDtInVx(old(vm.cpu.View()), vx)
  {
    var cpu := vm.cpu;
    cpu.register[vx] := cpu.delay;
  }

  /** Fx0A LD Vx, K; `key` is Chip8Key of the next key event's code. */
  method LdKey(vm: VM, vx: Nibble, key: Peripheral.Chip8KeyResult)
    requires vm.Valid()
    modifies vm.cpu.register
    ensures vm.Valid()
    ensures vm.cpu.View() == Semantics.LdKey(old(vm.cpu.View()), vx, key)
  {
    var cpu := vm.cpu;
    cpu.register[vx] := key.value;
  }

  /** Fx15 LD DT, Vx */
  method LdDt(vm: VM, vx: Nibble)
    requires vm.Valid()
    modifies vm.cpu
    ensures vm.Valid()
    ensures vm.cpu.register == old(vm.cpu.register) && vm.cpu.stack == old(vm.cpu.stack)
    ensures vm.cpu.View() == Semantics.LdDt(old(vm.cpu.View()), vx)
  {
    var cpu := vm.cpu;
    cpu.delay := cpu.register[vx];
  }

  /** Fx18 LD ST, Vx */
  method LdSt(vm: VM, vx: Nibble)
    requires vm.Valid()
    modifies vm.cpu
    ensures vm.Valid()
    ensures vm.cpu.register == old(vm.cpu.register) && vm.cpu.stack == old(vm.cpu.stack)
    ensures vm.cpu.View() == Semantics.LdSt(old(vm.cpu.View()), vx)
  {
    var cpu := vm.cpu;
    cpu.sound := cpu.register[vx];
  }

  /** Fx1E ADD I, Vx */
  method AddI(vm: VM, vx: Nibble)
    requires vm.Valid()
    modifies vm.cpu
    ensures vm.Valid()
    ensures vm.cpu.register == old(vm.cpu.register) && vm.cpu.stack == old(vm.cpu.stack)
    ensures vm.cpu.View() == Semantics.AddI(old(vm.cpu.View()), vx)
  {
    var cpu := vm.cpu;
    cpu.registerI := AddWord(cpu.register[vx], cpu.registerI);
  }

  /** Fx55 LD [I], Vx: the loop runs over V0..Vx but always writes ram[I]. */
  method LdIToVx(vm: VM, vx: Nibble) returns (panicked: bool)
    requires vm.Valid()
    modifies vm.memory.ram
    ensures vm.Valid()
    ensures var out := Semantics.StoreRegisters(old(vm.cpu.View()), old(vm.memory.ram[..]), vx);
            panicked == out.Panicked? && vm.memory.ram[..] == out.state
  {
    var cpu := vm.cpu;
    var memory := vm.memory;
    var reg := 0;
    while reg <= vx
      invariant 0 <= reg <= vx + 1
      invariant reg == 0 ==> memory.ram[..] == old(memory.ram[..])
      invariant reg > 0 ==>
                  cpu.registerI < memory.ram.Length &&
                  memory.ram[..] == old(memory.ram[..])[cpu.registerI := cpu.register[reg - 1]]
    {
      if cpu.registerI >= memory.ram.Length {
        return true;
      }
      memory.ram[cpu.registerI] := cpu.register[reg];
      reg := reg + 1;
    }
    panicked := false;
  }

  /** Fx65 LD Vx, [I]: the loop runs over V0..Vx but always reads ram[I]. */
  method LdVx(vm: VM, vx: Nibble) returns (panicked: bool)
    requires vm.Valid()
    modifies vm.cpu.register
    ensures vm.Valid()
    ensures var out := Semantics.LoadRegisters(old(vm.cpu.View()), vm.memory.ram[..], vx);
            panicked == out.Panicked? && vm.cpu.View() == out.state
  {
    var cpu := vm.cpu;
    var memory := vm.memory;
    var addr := cpu.registerI;
    var reg := 0;
    while reg <= vx
      invariant 0 <= reg <= vx + 1
      invariant reg > 0 ==> addr < memory.ram.Length
      invariant forall r :: 0 <= r < reg ==> cpu.register[r] == memory.ram[addr]
      invariant forall r :: reg <= r < 16 ==> cpu.register[r] == old(cpu.register[r])
    {
      if addr >= memory.ram.Length {
        return true;
      }
      cpu.register[reg] := memory.ram[addr];
      reg := reg + 1;
    }
    panicked := false;
  }
}
