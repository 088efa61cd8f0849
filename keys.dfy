// The physical-key vocabulary the keyboard code works with (the codes and
// directions of golang.org/x/mobile/event/key), the 4x4 CHIP-8 keypad layout,
// and the code-to-keypad map that keyboard.go and peripheral.go both build
// from that layout.
module Keys {
  import opened Bytes

  /** key.Code is a uint32 holding a USB HID usage id. */
  type Code = c: int | 0 <= c < 0x1_0000_0000

  const CodeUnknown: Code := 0
  const CodeA: Code := 4
  const CodeB: Code := 5
  const CodeC: Code := 6
  const CodeD: Code := 7
  const CodeE: Code := 8
  const CodeF: Code := 9
  const Code1: Code := 30
  const Code2: Code := 31
  const Code3: Code := 32
  const Code4: Code := 33
  const Code5: Code := 34
  const Code6: Code := 35
  const Code7: Code := 36
  const Code8: Code := 37
  const Code9: Code := 38
  const Code0: Code := 39

  /** key.Direction; DirNone is its zero value. */
  datatype Direction = DirNone | DirPress | DirRelease

  datatype KeyEvent = KeyEvent(code: Code, direction: Direction)

  type Keypad = k: seq<seq<uint8>> | |k| == 4 && forall r :: 0 <= r < 4 ==> |k[r]| == 4
    witness [[0, 0, 0, 0], [0, 0, 0, 0], [0, 0, 0, 0], [0, 0, 0, 0]]

  /** The layout 1 2 3 C / 4 5 6 D / 7 8 9 E / A 0 B F. */
  const Layout: Keypad := [[1, 2, 3, 0xC], [4, 5, 6, 0xD], [7, 8, 9, 0xE], [0xA, 0, 0xB, 0xF]]

  /** The map from the physical key labelled with a hex digit to the keypad cell
      that shows that digit in the given layout: its keys are exactly the
      sixteen hex-digit keys 0-9 and A-F, whatever the layout. */
  function KeyboardMapOf(keypad: Keypad): (m: map<Code, uint8>)
    ensures forall c: Code :: c in m <==> c == Code0 || Code1 <= c <= Code9 || CodeA <= c <= CodeF
  {
    map[Code0 := keypad[3][1], Code1 := keypad[0][0], Code2 := keypad[0][1],
        Code3 := keypad[0][2], Code4 := keypad[1][0], Code5 := keypad[1][1],
        Code6 := keypad[1][2], Code7 := keypad[2][0], Code8 := keypad[2][1],
        Code9 := keypad[2][2], CodeA := keypad[3][0], CodeB := keypad[3][2],
        CodeC := keypad[0][3], CodeD := keypad[1][3], CodeE := keypad[2][3],
        CodeF := keypad[3][3]]
  }

  /** Reference definition: the physical key whose label is hex digit d. */
  function HexKeyCode(d: Nibble): Code {
    if d == 0 then Code0
    else if d < 10 then Code1 + (d - 1)
    else CodeA + (d - 10)
  }

  /** The layout map sends the key labelled d to d, for all sixteen digits,
      and maps no other key: it is a bijection between the sixteen hex-digit
      keys and the keypad values 0..15. */
  lemma LayoutMapIsHexDigits()
    ensures forall d: Nibble :: HexKeyCode(d) in KeyboardMapOf(Layout) && KeyboardMapOf(Layout)[HexKeyCode(d)] == d
    ensures forall c :: c in KeyboardMapOf(Layout) ==>
              KeyboardMapOf(Layout)[c] < 16 && HexKeyCode(KeyboardMapOf(Layout)[c]) == c
  {
    var m := KeyboardMapOf(Layout);
    assert m == map[39 := 0, 30 := 1, 31 := 2, 32 := 3, 33 := 4, 34 := 5, 35 := 6, 36 := 7,
                    37 := 8, 38 := 9, 4 := 10, 5 := 11, 6 := 12, 7 := 13, 8 := 14, 9 := 15];
  }
}
