// peripheral.go: the keypad layout held by a second keyboard type, the
// package-level key map it installs, and the lookup from a physical key to
// its CHIP-8 keypad value.
module Peripheral {
  import opened Bytes
  import opened Keys

  class Keyboard {
    var keypad: Keypad

    /** A zero-valued keyboard: every keypad cell 0. */
    constructor ()
      ensures keypad == [[0, 0, 0, 0], [0, 0, 0, 0], [0, 0, 0, 0], [0, 0, 0, 0]]
    {
      keypad := [[0, 0, 0, 0], [0, 0, 0, 0], [0, 0, 0, 0], [0, 0, 0, 0]];
    }

    /** InitKeyboard: installs the standard layout and points the
        package-level key map at it. */
    method InitKeyboard(pkg: PackageState)
      modifies this, pkg
      ensures keypad == Layout
      ensures pkg.keyboardMap == KeyboardMapOf(Layout)
    {
      keypad := Layout;
      pkg.keyboardMap := KeyboardMapOf(keypad);
    }
  }

  /** The package-level variable `keyboardMap`; before InitKeyboard runs it is
      Go's nil map, which every lookup misses. */
  class PackageState {
    var keyboardMap: map<Code, uint8>

    constructor ()
      ensures keyboardMap == map[]
    {
      keyboardMap := map[];
    }
  }

  /** The pair (value, error) that Chip8Key returns; `notAvailable` stands for
      a non-nil error. */
  datatype KeyLookup = KeyLookup(value: uint8, notAvailable: bool)

  /** The pairs Chip8Key can return: on an error the value is always 0. */
  type Chip8KeyResult = r: KeyLookup | r.notAvailable ==> r.value == 0
    witness KeyLookup(0, true)

  /** Chip8Key: the keypad value of a physical key, or (0, error) when the key
      map does not hold it. */
  function Chip8Key(keyboardMap: map<Code, uint8>, normalKey: Code): (r: Chip8KeyResult)
    ensures !r.notAvailable <==> normalKey in keyboardMap
    ensures !r.notAvailable ==> r.value == keyboardMap[normalKey]
    ensures r.notAvailable ==> r.value == 0
  {
    if normalKey in keyboardMap then KeyLookup(keyboardMap[normalKey], false)
    else KeyLookup(0, true)
  }

  /** After InitKeyboard, the key labelled with hex digit d yields (d, nil),
      every successful lookup yields a value of at most 0xF, and every other
      key yields the error. */
  lemma Chip8KeyAfterInit(normalKey: Code)
    ensures forall d: Nibble :: Chip8Key(KeyboardMapOf(Layout), HexKeyCode(d)) == KeyLookup(d, false)
    ensures var r := Chip8Key(KeyboardMapOf(Layout), normalKey);
            !r.notAvailable ==> r.value <= 0xF && HexKeyCode(r.value) == normalKey
    ensures (forall d: Nibble :: HexKeyCode(d) != normalKey) ==>
              Chip8Key(KeyboardMapOf(Layout), normalKey) == KeyLookup(0, true)
  {
    LayoutMapIsHexDigits();
  }

  /** Before InitKeyboard the map is nil, so every lookup fails. */
  lemma Chip8KeyBeforeInit(normalKey: Code)
    ensures Chip8Key(map[], normalKey) == KeyLookup(0, true)
  {
  }
}
