// keyboard.go: the keyboard that records key presses coming from the window
// and hands each press out once, translated to a CHIP-8 keypad value.
module KeyboardInput {
  import opened Bytes
  import opened Keys

  /** What and when the last eligible key was; the time stamp is not modelled. */
  datatype LastPressedKey = LastPressedKey(code: Code)

  class Keyboard {
    var keypad: Keypad
    var keyboardState: map<Code, Direction>
    var keyboardMap: map<Code, uint8>
    var reverseKeyboardMap: map<uint8, Code>
    var lastPressedKey: LastPressedKey

    /** The reverse map is the exact inverse of the forward map. */
    ghost predicate Valid()
      reads this
    {
      && (forall c :: c in keyboardMap ==>
            keyboardMap[c] in reverseKeyboardMap && reverseKeyboardMap[keyboardMap[c]] == c)
      && (forall v :: v in reverseKeyboardMap ==>
            reverseKeyboardMap[v] in keyboardMap && keyboardMap[reverseKeyboardMap[v]] == v)
    }

    /** newKeyboard: the default layout, its map, and the reverse map filled
        by walking the forward map (in whatever order Go's map iteration
        yields; the result does not depend on it). */
    constructor ()
      ensures Valid()
      ensures keypad == Layout && keyboardMap == KeyboardMapOf(Layout)
      ensures forall v: uint8 :: v in reverseKeyboardMap <==> v < 16
      ensures keyboardState == map[] && lastPressedKey == LastPressedKey(CodeUnknown)
    {
      keypad := Layout;
      keyboardState := map[];
      lastPressedKey := LastPressedKey(CodeUnknown);
      var forward := KeyboardMapOf(Layout);
      keyboardMap := forward;
      LayoutMapIsHexDigits();
      var reverse: map<uint8, Code> := map[];
      var remaining := forward.Keys;
      while remaining != {}
        invariant remaining <= forward.Keys
        invariant forall c :: c in forward && c !in remaining ==>
                    forward[c] in reverse && reverse[forward[c]] == c
        invariant forall v :: v in reverse ==>
                    reverse[v] in forward && reverse[v] !in remaining && forward[reverse[v]] == v
        decreases remaining
      {
        var c :| c in remaining;
        assert forall c' :: c' in forward && forward[c'] == forward[c] ==> c' == c;
        reverse := reverse[forward[c] := c];
        remaining := remaining - {c};
      }
      reverseKeyboardMap := reverse;
      forall v: uint8 | v < 16
        ensures v in reverse
      {
        assert forward[HexKeyCode(v)] == v;
      }
    }

    /** ProcessKeyEvent: an ineligible event changes nothing; an eligible one
        becomes the last pressed key and marks its code as pressed, leaving
        every other code's state as it was. */
    method ProcessKeyEvent(event: KeyEvent)
      requires Valid()
      modifies this
      ensures Valid()
      ensures keypad == old(keypad) && keyboardMap == old(keyboardMap)
      ensures reverseKeyboardMap == old(reverseKeyboardMap)
      ensures !old(EligibleKeyEvent(event, this)) ==>
                keyboardState == old(keyboardState) && lastPressedKey == old(lastPressedKey)
      ensures old(EligibleKeyEvent(event, this)) ==>
                keyboardState == old(keyboardState)[event.code := DirPress] &&
                lastPressedKey.code == event.code
    {
      if !EligibleKeyEvent(event, this) {
        return;
      }
      lastPressedKey := lastPressedKey.(code := event.code);
      keyboardState := keyboardState[event.code := DirPress];
    }

    /** GetKeyState: the direction stored for the physical key of a keypad
        value (DirNone when nothing is stored), consumed by resetting that
        entry to DirRelease. A keypad value with no physical key looks up
        the zero code. */
    method GetKeyState(chip8Key: uint8) returns (dir: Direction)
      requires Valid()
      modifies this
      ensures Valid()
      ensures keypad == old(keypad) && keyboardMap == old(keyboardMap)
      ensures reverseKeyboardMap == old(reverseKeyboardMap) && lastPressedKey == old(lastPressedKey)
      ensures dir == StoredDirection(old(keyboardState), PhysicalKey(reverseKeyboardMap, chip8Key))
      ensures keyboardState == old(keyboardState)[PhysicalKey(reverseKeyboardMap, chip8Key) := DirRelease]
    {
      var res := if chip8Key in reverseKeyboardMap then reverseKeyboardMap[chip8Key] else CodeUnknown;
      dir := if res in keyboardState then keyboardState[res] else DirNone;
      keyboardState := keyboardState[res := DirRelease];
    }
  }

  /** The physical key of a keypad value, or the zero code when it has none. */
  function PhysicalKey(reverse: map<uint8, Code>, chip8Key: uint8): Code {
    if chip8Key in reverse then reverse[chip8Key] else CodeUnknown
  }

  /** The direction a state map holds for a code, with Go's zero value DirNone
      for a code it does not hold. */
  function StoredDirection(state: map<Code, Direction>, code: Code): Direction {
    if code in state then state[code] else DirNone
  }

  /** An event counts when its key is mapped and it is a press or a hold
      (DirNone); releases are skipped. */
  function EligibleKeyEvent(event: KeyEvent, k: Keyboard): (r: bool)
    reads k
    ensures r ==> event.code in k.keyboardMap && event.direction != DirRelease
    ensures event.direction == DirRelease ==> !r
  {
    event.code in k.keyboardMap && (event.direction == DirPress || event.direction == DirNone)
  }

  /** With the default layout, exactly the presses and holds of the sixteen
      hex-digit keys are eligible. */
  lemma EligibleIffHexKey(event: KeyEvent, k: Keyboard)
    requires k.keyboardMap == KeyboardMapOf(Layout)
    ensures EligibleKeyEvent(event, k) <==>
              event.direction != DirRelease && exists d: Nibble :: HexKeyCode(d) == event.code
  {
    LayoutMapIsHexDigits();
    if event.code in k.keyboardMap {
      var d: Nibble := k.keyboardMap[event.code];
      assert HexKeyCode(d) == event.code;
    }
  }

  /** A press of a mapped key is handed out once: the first query for its
      keypad value reports DirPress, the next one DirRelease. */
  method PressIsConsumedOnce(k: Keyboard, c: Code) returns (first: Direction, second: Direction)
    requires k.Valid() && c in k.keyboardMap
    modifies k
    ensures first == DirPress && second == DirRelease
  {
    k.ProcessKeyEvent(KeyEvent(c, DirPress));
    first := k.GetKeyState(k.keyboardMap[c]);
    second := k.GetKeyState(k.keyboardMap[c]);
  }
}
