# CHIP-8 interpreter core, modelled in Dafny

This project models the core of a small Go CHIP-8 interpreter (an early
snapshot): the CPU record, the 4 KiB RAM with its font table and ROM loader,
the 64x32 display grid, the VM that owns the three, the instruction handlers
that change them, the two key-mapping components, and the byte helpers.

Layout, one module per Go file:

- `bytes.dfy` (`Bytes`): Go's `byte` and `uint16` as bounded integers with
  their wrap-around written out (`AddByte`, `SubByte`, `AddWord`). It also
  holds `|`, `&` and `^` on bytes, defined bit by bit, with lemmas about them.
- `util.dfy` (`Util`): `MinOf`, `MaxOf` and `Reverse` as loops, proved
  against their specifications.
- `cpu.dfy` (`Chip8Cpu`): the CPU as a class over two arrays (registers and
  stack). `View()` reads its state as a `CpuState` value. It also holds
  `newCPU` and `StepTimers`, plus the timer arithmetic across k steps.
- `memory.dfy` (`Chip8Memory`): the address constants, the font, `newMemory`,
  `setDigitDataInRAM` and the copy part of `LoadRomFile`.
- `display.dfy` (`Chip8Display`): the grid and `clearDisplay`.
- `chip8.dfy` (`Chip8Vm`): the `VM` and `InitVM`.
- `semantics.dfy` (`Semantics`): one function per instruction handler on the
  `CpuState` value, with the lemmas that state what each instruction does.
- `opcodes.dfy` (`Opcodes`): the handlers as methods that update the VM in
  place. Every handler except CLS is proved to produce exactly the state its
  `Semantics` function gives. CLS is proved to leave the grid blank.
- `keys.dfy` (`Keys`): key codes and directions, the 4x4 keypad layout and
  the code-to-digit map built from it.
- `keyboard.dfy` (`KeyboardInput`): the `Keyboard` of keyboard.go, which is a
  press/consume state machine.
- `peripheral.dfy` (`Peripheral`): the other `Keyboard` (peripheral.go), the
  package-level map and `Chip8Key`.

The Go package declares `Keyboard` twice, once in keyboard.go and once in
peripheral.go, so the two live in separate modules here.

The model follows the code where it departs from the usual CHIP-8
description:

- No handler advances the PC by 2 on its own; only the skip instructions add
  2.
- CALL increments SP before writing the stack slot. RET reads the slot before
  decrementing SP, so SP = 0 wraps to 255.
- The flag is the separate field `registerVF`, not `register[15]`.
- SUB sets the flag on strict `Vx > Vy`, so equal operands give 0.
- `LD [I], Vx` and `LD Vx, [I]` never advance the address: every iteration
  writes or reads `ram[I]`.

Go's index-out-of-range panics are modelled as results, not as
preconditions. `Semantics.Outcome` is `Completed(state)` or
`Panicked(state at the panic)`. The handler methods return `panicked`.

## Model

| member | source | states |
|---|---|---|
| Bytes.OrAndBounds | opcodes.go:136-152 | `Vx \| Vy` is at least each operand; `Vx & Vy` is at most each operand |
| Bytes.XorInvolutive | opcodes.go:156-162 | XOR with the same byte twice gives back the original byte, the step behind XorTwiceRestores |
| Bytes.Absorption | opcodes.go:136-152 | `a & (a \| b) == a` and `(a & b) \| b == b` on bytes |
| Bytes.AndMask | opcodes.go:263-269 | masking with 0xFF keeps a byte; masking with 0 clears it |
| Bytes.LowBit | opcodes.go:210-220 | `a & 1` is `a mod 2`, the bit SHR tests |
| Util.MinOf | util.go:9-18 | the result is an element of the non-empty input and at most every element |
| Util.MaxOf | util.go:21-30 | the result is an element of the non-empty input and at least every element |
| Util.MaxOfZero | util.go:21-30 | `MaxOf(0, v) == v` for every byte v |
| Util.Reverse | util.go:50-55 | the prepend loop yields `Reversed(s)`, the code points in opposite order |
| Util.ReversedAt | util.go:50-55 | position k of the reversal holds `s[\|s\|-1-k]`, and the length is kept |
| Util.ReversedLength | util.go:50-55 | reversal keeps the length |
| Util.ReversedInvolutive | util.go:50-55 | reversing twice gives back the original string |
| Chip8Cpu.TicksSaturate | cpu.go:29-41 | after k timer steps each timer is `max(0, t - k)`, independently of the other, and every other field is unchanged |
| Chip8Cpu.CPU.constructor | cpu.go:43-52 | newCPU: PC = 0x200 (ProgramAreaStart), and I, VF, SP, both timers, all 16 registers and all 16 stack slots are 0 |
| Chip8Cpu.CPU.StepTimers | cpu.go:29-41 | each non-zero timer drops by one and a zero timer stays 0 (never wraps to 255); nothing else changes |
| Chip8Memory.CopyCount | memory.go:82 | Go's `copy` moves `min(\|rom\|, 0xE00)` bytes: never more than the ROM or the space after 0x200 |
| Chip8Memory.LoadedImage | memory.go:82 | the RAM after `copy(ram[0x200:], rom)`: same length as RAM, and everything below 0x200 kept |
| Chip8Memory.LoadedImageContents | memory.go:82 | after a load, RAM keeps its length and `ram[0..0x200)`. `ram[0x200+i] = rom[i]` wherever that fits, and the bytes after the ROM are unchanged |
| Chip8Memory.FontSurvivesLoad | memory.go:26-42 | the glyph of hex digit d sits at `ram[5d..5d+5)` after any ROM load |
| Chip8Memory.Memory.constructor | memory.go:51-55 | newMemory: `ram[0..80)` is the font, `ram[80..4096)` is zero, romSize is 0 |
| Chip8Memory.Memory.LoadRomFile | memory.go:58-89 | a failed open changes nothing. Otherwise RAM becomes the loaded image (truncated at the end of RAM) and romSize is the full ROM length |
| Chip8Memory.SetDigitDataInRAM | memory.go:92-102 | the loop puts the font at `ram[0..80)` and leaves `ram[80..)` unchanged |
| Chip8Display.Screen.constructor | display.go:42-46 | a zero Screen: a blank 32x64 grid, no window and no back buffer |
| Chip8Display.Screen.ClearDisplay | display.go:48-55 | every one of the 32x64 cells is 0 afterwards, so clearing is idempotent; only the grid changes |
| Chip8Vm.VM.InitVM | chip8.go:11-20 | InitVM: a fresh CPU, memory and screen. The CPU is in its initial state, RAM holds only the font, romSize is 0 and the grid is blank |
| Semantics.CallThenRet | opcodes.go:32-63 | when SP + 1 < 16, CALL then RET restores PC and SP; only the written stack slot differs |
| Semantics.CallPanicsIff | opcodes.go:54-63 | CALL panics iff the incremented SP is 16..255. From SP = 255 it wraps to 0 and pushes into slot 0 |
| Semantics.RetFromSlotZero | opcodes.go:32-39 | RET panics iff SP >= 16. From SP = 0 it returns to `stack[0]` and SP wraps to 255 |
| Semantics.SkipsAddTwo | opcodes.go:67-108 | SE, SNE (byte), SE and SNE (register) add 2 to PC iff their condition holds and change nothing otherwise. Exactly one of each SE/SNE pair skips |
| Semantics.RegisterOpsTouchOnlyVx | opcodes.go:112-162 | LD, ADD (mod 256), LD Vx Vy, OR, AND and XOR change only `register[x]`, to the stated value of the old registers |
| Semantics.XorTwiceRestores | opcodes.go:156-162 | for x != y, executing XOR Vx, Vy twice gives back the starting state |
| Semantics.AddRegCarry | opcodes.go:169-186 | VF = 1 iff Vx + Vy > 255. The new Vx plus 256*VF is the full sum. Only Vx and VF change, so register 15 is untouched unless x = 15 |
| Semantics.SubRegBorrow | opcodes.go:194-204 | VF = 1 iff Vx > Vy (equal gives 0). Vx becomes `(Vx - Vy) mod 256`. Only Vx and VF change |
| Semantics.ShrShiftsOutLowBit | opcodes.go:210-220 | VF is the old low bit and `2*Vx' + VF == Vx`. y is ignored. Only Vx and VF change |
| Semantics.RndStaysInsideMask | opcodes.go:263-269 | whatever the random byte, Vx has no bit outside kk. kk = 0xFF gives the random byte and kk = 0 gives 0 |
| Semantics.AddressArithmetic | opcodes.go:254-258 | JP V0 sets `PC = (nnn + V0) mod 65536`. ADD I sets `I = (I + Vx) mod 65536` and leaves VF alone |
| Semantics.DelayTimerRoundTrip | opcodes.go:326-356 | LD DT, Vx then LD Vy, DT copies Vx into Vy via the delay timer. LD ST sets only the sound timer |
| Semantics.StoreRegistersWritesOneByte | opcodes.go:379-387 | panics iff I >= 4096, leaving RAM unchanged. Otherwise only `ram[I]` changes, and it ends equal to Vx |
| Semantics.LoadRegistersReadsOneByte | opcodes.go:391-400 | panics iff I >= 4096. Otherwise V0..Vx all become `ram[I]`, and V(x+1)..V15 and every other field are unchanged |
| Semantics.KeyLookupOutcomes | opcodes.go:283-340 | for any lookup Chip8Key can return: an unsupported key makes LD Vx, K store 0 and SKP/SKNP change nothing; a supported key stores its value; LD Vx, K changes only Vx |
| Semantics.KeyInstructionsWithLayout | opcodes.go:283-340 | with the standard map, LD Vx, K stores the digit of the hex key pressed (0 for other keys). SKP/SKNP skip iff Vx equals/differs from that digit, and do nothing for an unmapped key |
| Opcodes.Cls | opcodes.go:24-28 | the grid is blank afterwards; the CPU and RAM are untouched |
| Opcodes.Ret | opcodes.go:32-39 | the new CPU state and panic flag are exactly `Semantics.Ret` of the old state |
| Opcodes.Jp | opcodes.go:43-48 | the new CPU state is `Semantics.Jp` of the old (PC = nnn) |
| Opcodes.Call | opcodes.go:54-63 | the new CPU state and panic flag are exactly `Semantics.Call` of the old state |
| Opcodes.Se | opcodes.go:67-79 | the new CPU state is `Semantics.Se` of the old |
| Opcodes.SeNot | opcodes.go:83-94 | the new CPU state is `Semantics.SeNot` of the old |
| Opcodes.SeReg | opcodes.go:98-108 | the new CPU state is `Semantics.SeReg` of the old |
| Opcodes.Ld | opcodes.go:112-116 | the new CPU state is `Semantics.Ld` of the old; only the register array may change |
| Opcodes.Add | opcodes.go:120-124 | the new CPU state is `Semantics.Add` of the old; only the register array may change |
| Opcodes.LdReg | opcodes.go:128-132 | the new CPU state is `Semantics.LdReg` of the old |
| Opcodes.Or | opcodes.go:136-142 | the new CPU state is `Semantics.Or` of the old |
| Opcodes.And | opcodes.go:146-152 | the new CPU state is `Semantics.And` of the old |
| Opcodes.Xor | opcodes.go:156-162 | the new CPU state is `Semantics.Xor` of the old |
| Opcodes.AddReg | opcodes.go:169-186 | the new CPU state is `Semantics.AddReg` of the old |
| Opcodes.SubReg | opcodes.go:194-204 | the new CPU state is `Semantics.SubReg` of the old |
| Opcodes.Shr | opcodes.go:210-220 | the new CPU state is `Semantics.Shr` of the old |
| Opcodes.Sne | opcodes.go:236-242 | the new CPU state is `Semantics.Sne` of the old |
| Opcodes.LdI | opcodes.go:246-250 | the new CPU state is `Semantics.LdI` of the old (I = addr) |
| Opcodes.JpAdd | opcodes.go:254-258 | the new CPU state is `Semantics.JpAdd` of the old |
| Opcodes.Rnd | opcodes.go:263-269 | the new CPU state is `Semantics.Rnd` of the old, for the given random byte |
| Opcodes.Skp | opcodes.go:283-300 | the new CPU state is `Semantics.Skp` of the old, for the given key lookup |
| Opcodes.Sknp | opcodes.go:305-322 | the new CPU state is `Semantics.Sknp` of the old, for the given key lookup |
| Opcodes.LdDtInVx | opcodes.go:326-330 | the new CPU state is `Semantics.LdDtInVx` of the old |
| Opcodes.LdKey | opcodes.go:335-340 | the new CPU state is `Semantics.LdKey` of the old; the key parameter ranges over what Chip8Key returns, so an unsupported key stores 0 |
| Opcodes.LdDt | opcodes.go:344-348 | the new CPU state is `Semantics.LdDt` of the old |
| Opcodes.LdSt | opcodes.go:352-356 | the new CPU state is `Semantics.LdSt` of the old |
| Opcodes.AddI | opcodes.go:361-365 | the new CPU state is `Semantics.AddI` of the old |
| Opcodes.LdIToVx | opcodes.go:379-387 | the loop leaves RAM and the panic flag exactly as `Semantics.StoreRegisters` says; registers are untouched |
| Opcodes.LdVx | opcodes.go:391-400 | the loop leaves the CPU state and the panic flag exactly as `Semantics.LoadRegisters` says; RAM is untouched |
| Keys.KeyboardMapOf | keyboard.go:36-53 | the map literal over a keypad (also peripheral.go:24-40): its keys are exactly Code0..Code9 and CodeA..CodeF, whatever the keypad holds |
| Keys.LayoutMapIsHexDigits | keyboard.go:29-53 | the map built from the keypad sends each of Code0..Code9 and CodeA..CodeF to its own hex digit, and has no other keys. Its 16 values are distinct and cover 0..15 |
| KeyboardInput.Keyboard.constructor | keyboard.go:23-61 | newKeyboard: the layout keypad, its 16-key map, a reverse map defined exactly on 0..15 and inverse to it, and an empty key state |
| KeyboardInput.Keyboard.ProcessKeyEvent | keyboard.go:74-85 | an ineligible event changes nothing. An eligible one sets `keyboardState[code] = DirPress` and `lastPressedKey.code = code`, and no other entry changes |
| KeyboardInput.Keyboard.GetKeyState | keyboard.go:88-96 | returns the stored direction of the key mapped to the digit (DirNone if none is stored), then sets that entry to DirRelease |
| KeyboardInput.EligibleKeyEvent | keyboard.go:63-71 | an eligible event has a mapped code and is not a release; a release is never eligible |
| KeyboardInput.EligibleIffHexKey | keyboard.go:63-71 | an event is eligible iff its code is one of the 16 hex keys and its direction is DirPress or DirNone |
| KeyboardInput.PressIsConsumedOnce | keyboard.go:74-96 | a press of a mapped key, then two GetKeyState calls for its digit, yields DirPress and then DirRelease |
| Peripheral.Keyboard.constructor | peripheral.go:10-12 | a zero Keyboard: every keypad entry is 0 |
| Peripheral.PackageState.constructor | peripheral.go:14 | the package map starts nil (empty) |
| Peripheral.Keyboard.InitKeyboard | peripheral.go:17-41 | sets the keypad to 1 2 3 C / 4 5 6 D / 7 8 9 E / A 0 B F and installs the map built from it |
| Peripheral.Chip8Key | peripheral.go:45-54 | succeeds iff the code is in the map, returning the mapped value; otherwise returns (0, error) |
| Peripheral.Chip8KeyAfterInit | peripheral.go:24-54 | after InitKeyboard the key of digit d yields (d, ok). Every success is at most 0xF and comes from a hex key. Any other key yields the error |
| Peripheral.Chip8KeyBeforeInit | peripheral.go:14-53 | before InitKeyboard (nil map) every lookup yields the error |

## Left out

- The fetch/decode/dispatch loop does not exist in the source, so none is modelled. `drw` has an empty body. SUBN, SHL, LD F and LD B exist only as comments. The `Opcode` placeholder struct is unused.
- `NewDisplay`, `BufferToScreen` and `defaultDrawToBuffer` are window creation, event loops and texture upload in the shiny UI library. `window` and `backBuffer` are modelled only as attached/not-attached handles.
- main.go is not part of this model: it only logs and discards a CPU.
- `os.Open` and `io.Copy` in `LoadRomFile` are file I/O. The load takes an "open failed" flag plus the bytes read. The Go code copies whatever was read even after a read error, so a partial read is just a shorter byte sequence.
- Logging (`log.Print*`) and `HexOf`/`HexOfByte` are `fmt` formatting with no effect on state.
- `RandInRange` and `math/rand` are randomness. `Opcodes.Rnd` takes the drawn byte as a parameter.
- The channel receive from `vm.keyboardEvents` in `skp`, `sknp` and `ld_key` is left out. It blocks on another goroutine, and `VM` does not declare that field. The handlers take the `Chip8Key` lookup result of the received event as a parameter. Its type `Peripheral.Chip8KeyResult` admits only the pairs Chip8Key can return, so an error always comes with the value 0.
- `time.Now()` in `ProcessKeyEvent` is a clock. Only `lastPressedKey.code` is modelled.
- The concurrent timer driver and any races are left out. Only the sequential `StepTimers` is modelled.
- Register indices: the x and y fields are 4-bit (`Nibble`) in every handler. Go takes a `uint8` and would panic on an index of 16 or more, which a 4-bit instruction field cannot produce.
- Util.Reverse: works on a sequence of code points. Go's decoding of invalid UTF-8 into U+FFFD is not modelled.
- Key codes and directions are the integer values of the mobile key-event package. Only the codes the maps mention are named.
