/** Key events: the key symbols and modifier bits the engine tests, with the
    numeric values the IBus bindings give them (X11 key symbols and the
    IBus modifier-mask layout). */
module Keys {

  // Key symbols.
  const ShiftL := 0xffe1
  const ShiftR := 0xffe2
  const Escape := 0xff1b
  const BackSpace := 0xff08
  const Tab := 0xff09
  const Return := 0xff0d
  const Home := 0xff50
  const Left := 0xff51
  const Up := 0xff52
  const Right := 0xff53
  const Down := 0xff54
  const PageUp := 0xff55
  const PageDown := 0xff56
  const End := 0xff57
  const Space := 0x20
  const Comma := 0x2c
  const Minus := 0x2d
  const Period := 0x2e
  const Digit1 := 0x31
  const Digit9 := 0x39
  const Equal := 0x3d
  const Grave := 0x60

  // Modifier bits.
  const ShiftMask: bv32 := 1 << 0
  const LockMask: bv32 := 1 << 1     // Caps Lock
  const ControlMask: bv32 := 1 << 2
  const AltMask: bv32 := 1 << 3      // MOD1
  const Mod2Mask: bv32 := 1 << 4     // Num Lock
  const SuperMask: bv32 := 1 << 26
  const HyperMask: bv32 := 1 << 27
  const MetaMask: bv32 := 1 << 28
  const ReleaseMask: bv32 := 1 << 30

  /** The bits that mark a host hotkey rather than text input. */
  const HotkeyMask: bv32 := ControlMask | AltMask | SuperMask | HyperMask | MetaMask

  /** A key press or release. `coined` is the flag that says the key stands
      for a printable character of its own; it arrives with the event. */
  datatype KeyEvent = KeyEvent(keycode: int, mask: bv32, coined: bool)

  /** The keys that page a candidate list back (`Page_Up`, `Up`, `-`, `,`). */
  predicate PagesUp(keycode: int)
  {
    keycode in {PageUp, Up, Minus, Comma}
  }

  /** The keys that page a candidate list forward (`Page_Down`, `Down`, `=`, `.`). */
  predicate PagesDown(keycode: int)
  {
    keycode in {PageDown, Down, Equal, Period}
  }

  /** The digit keys `1` to `9`. */
  predicate IsDigit(keycode: int)
  {
    Digit1 <= keycode <= Digit9
  }
}
