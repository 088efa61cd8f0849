// display.go: the 64x32 pixel grid the interpreter draws into, and clearing it.
module Chip8Display {

  const EmuHeight := 32
  const EmuWidth := 64

  /** A handle owned by the windowing library (a window or an image buffer);
      only whether one is attached is modelled. */
  datatype Handle = NoHandle | Attached(id: nat)

  class Screen {
    /** display[y, x]: row y (0..31), column x (0..63). */
    var display: array2<int>
    var window: Handle
    var backBuffer: Handle

    ghost predicate Valid()
      reads this
    {
      display.Length0 == EmuHeight && display.Length1 == EmuWidth
    }

    ghost predicate IsBlank()
      reads this, display
    {
      forall y, x :: 0 <= y < display.Length0 && 0 <= x < display.Length1 ==> display[y, x] == 0
    }

    /** A zero-valued Screen, as `new(Screen)` yields: a blank grid and no
        window or buffer attached. */
    constructor ()
      ensures Valid() && fresh(display) && IsBlank()
      ensures window == NoHandle && backBuffer == NoHandle
    {
      display := new int[EmuHeight, EmuWidth]((_, _) => 0);
      window := NoHandle;
      backBuffer := NoHandle;
    }

    /** clearDisplay: every pixel of the grid becomes 0, whatever it held, so
        clearing twice leaves the same grid as clearing once. Only the grid's
        cells change; the window and the back buffer stay attached. */
    method ClearDisplay()
      requires Valid()
      modifies display
      ensures Valid() && IsBlank()
    {
      for j := 0 to EmuHeight
        invariant forall y, x :: 0 <= y < j && 0 <= x < EmuWidth ==> display[y, x] == 0
      {
        for i := 0 to EmuWidth
          invariant forall y, x :: 0 <= y < j && 0 <= x < EmuWidth ==> display[y, x] == 0
          invariant forall x :: 0 <= x < i ==> display[j, x] == 0
        {
          display[j, i] := 0;
        }
      }
    }
  }
}
