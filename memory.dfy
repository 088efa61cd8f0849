// memory.go: the 4 KiB RAM, the hexadecimal digit font written at its start,
// and the copy of a ROM image into the program area at 0x200.
module Chip8Memory {
  import opened Bytes

  const RAMEndAddr := 0xFFF
  const InterpBlackListAdrrEnd := 0x1FF
  const RAMSize := 0x1000
  const DigitSpriteDataStart := 0x000
  const DigitSpriteDataEnd := 0x1FF
  const DisplayDataStart := 0x100
  const DisplayDataEnd := 0x1FF
  const ProgramAreaStart := 0x200
  const ProgramAreaEnd := 0xFFF

  /** Sixteen 5-byte sprites, one per hex digit 0..F. */
  const Fontset: seq<uint8> := [
    0xF0, 0x90, 0x90, 0x90, 0xF0, // 0
    0x20, 0x60, 0x20, 0x20, 0x70, // 1
    0xF0, 0x10, 0xF0, 0x80, 0xF0, // 2
    0xF0, 0x10, 0xF0, 0x10, 0xF0, // 3
    0x90, 0x90, 0xF0, 0x10, 0x10, // 4
    0xF0, 0x80, 0xF0, 0x10, 0xF0, // 5
    0xF0, 0x80, 0xF0, 0x90, 0xF0, // 6
    0xF0, 0x10, 0x20, 0x40, 0x40, // 7
    0xF0, 0x90, 0xF0, 0x90, 0xF0, // 8
    0xF0, 0x90, 0xF0, 0x10, 0xF0, // 9
    0xF0, 0x90, 0xF0, 0x90, 0x90, // A
    0xE0, 0x90, 0xE0, 0x90, 0xE0, // B
    0xF0, 0x80, 0x80, 0x80, 0xF0, // C
    0xE0, 0x90, 0x90, 0x90, 0xE0, // D
    0xF0, 0x80, 0xF0, 0x80, 0xF0, // E
    0xF0, 0x80, 0xF0, 0x80, 0x80] // F

  /** The five rows of the sprite for hex digit d. */
  function Glyph(d: Nibble): seq<uint8> {
    Fontset[5 * d .. 5 * d + 5]
  }

  /** The RAM image after a ROM of the given bytes is copied to 0x200: Go's
      copy stops at the end of RAM, so bytes beyond 0xFFF are dropped and
      every other address keeps its old value. */
  function LoadedImage(ram: seq<uint8>, rom: seq<uint8>): (r: seq<uint8>)
    requires |ram| == RAMSize
    ensures |r| == |ram|
    ensures r[..ProgramAreaStart] == ram[..ProgramAreaStart]
  {
    var n := CopyCount(rom);
    ram[..ProgramAreaStart] + rom[..n] + ram[ProgramAreaStart + n..]
  }

  /** How many ROM bytes fit: min(|rom|, 0xE00). */
  function CopyCount(rom: seq<uint8>): (n: nat)
    ensures n <= |rom| && n <= RAMSize - ProgramAreaStart
    ensures n == |rom| || n == RAMSize - ProgramAreaStart
  {
    if |rom| < RAMSize - ProgramAreaStart then |rom| else RAMSize - ProgramAreaStart
  }

  /** A load puts ROM byte i at 0x200 + i for every byte that fits, leaves the
      rest of the program area and the whole area below 0x200 (the font
      included) as it was, and keeps the RAM size. */
  lemma LoadedImageContents(ram: seq<uint8>, rom: seq<uint8>)
    requires |ram| == RAMSize
    ensures |LoadedImage(ram, rom)| == RAMSize
    ensures LoadedImage(ram, rom)[..ProgramAreaStart] == ram[..ProgramAreaStart]
    ensures forall i :: 0 <= i < |rom| && ProgramAreaStart + i < RAMSize ==>
              LoadedImage(ram, rom)[ProgramAreaStart + i] == rom[i]
    ensures forall a :: ProgramAreaStart + |rom| <= a < RAMSize ==> LoadedImage(ram, rom)[a] == ram[a]
  {
  }

  class Memory {
    var ram: array<uint8>
    var romSize: int

    ghost predicate Valid()
      reads this
    {
      ram.Length == RAMSize
    }

    /** newMemory: a zeroed RAM with the font copied to addresses 0..79 and
        no ROM loaded. */
    constructor ()
      ensures Valid() && fresh(ram)
      ensures ram[..80] == Fontset
      ensures forall a :: 80 <= a < RAMSize ==> ram[a] == 0
      ensures romSize == 0
    {
      ram := new uint8[RAMSize](_ => 0);
      romSize := 0;
      new;
      SetDigitDataInRAM(this);
    }

    /** LoadRomFile, with the file's contents as `rom`. When the file cannot
        be opened nothing changes. Otherwise whatever was read (io.Copy's
        error is only logged) is copied to 0x200, and romSize records every
        byte read even when the copy was cut short at the end of RAM. */
    method LoadRomFile(openFailed: bool, rom: seq<uint8>)
      requires Valid()
      modifies this, ram
      ensures Valid() && ram == old(ram)
      ensures openFailed ==> ram[..] == old(ram[..]) && romSize == old(romSize)
      ensures !openFailed ==> ram[..] == LoadedImage(old(ram[..]), rom) && romSize == |rom|
    {
      if openFailed {
        return;
      }
      var n := CopyCount(rom);
      forall i | 0 <= i < n {
        ram[ProgramAreaStart + i] := rom[i];
      }
      romSize := |rom|;
      assert ram[..] == LoadedImage(old(ram[..]), rom);
    }
  }

  /** setDigitDataInRAM: copies the 80 font bytes to consecutive addresses
      from DigitSpriteDataStart and leaves the rest of RAM alone. */
  method SetDigitDataInRAM(m: Memory)
    requires m.Valid()
    modifies m.ram
    ensures m.ram[..80] == Fontset
    ensures m.ram[80..] == old(m.ram[80..])
  {
    var startAddr := DigitSpriteDataStart;
    for i := 0 to 80
      invariant startAddr == DigitSpriteDataStart + i
      invariant m.ram[..i] == Fontset[..i]
      invariant m.ram[80..] == old(m.ram[80..])
    {
      m.ram[startAddr] := Fontset[i];
      startAddr := startAddr + 1;
    }
  }

  /** After a load, the glyph of every hex digit is still at 5d..5d+5, whatever
      the ROM held. */
  lemma FontSurvivesLoad(ram: seq<uint8>, rom: seq<uint8>)
    requires |ram| == RAMSize && ram[..80] == Fontset
    ensures forall d: Nibble :: LoadedImage(ram, rom)[5 * d .. 5 * d + 5] == Glyph(d)
  {
    LoadedImageContents(ram, rom);
    var img := LoadedImage(ram, rom);
    forall d: Nibble
      ensures img[5 * d .. 5 * d + 5] == Glyph(d)
    {
      var start := 5 * d;
      assert start + 5 <= 80;
      forall a | start <= a < start + 5
        ensures img[a] == Fontset[a]
      {
        assert img[a] == img[..ProgramAreaStart][a];
        assert ram[a] == ram[..80][a];
      }
    }
  }
}
