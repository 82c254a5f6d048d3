/**
 * The identifier taxonomy of the input store: the five closed control
 * categories, their identifiers, the tagged union `InputEnum` that carries
 * any one of them, and the total translations from the windowing and gamepad
 * libraries' identifiers.
 *
 * `InputMarker::into` of each identifier type is the matching `InputEnum`
 * constructor below (`MouseAxis(a)`, `KeyboardButton(k)`, ...).
 */
module Controls {
  import Winit
  import Gilrs

  datatype Option<+T> = None | Some(value: T)

  datatype MouseAxis =
    | PositionX | PositionY
    | PositionDeltaX | PositionDeltaY
    | WheelDeltaX | WheelDeltaY

  datatype GamepadAxis =
    | LeftStickX | LeftStickY | LeftZ
    | RightStickX | RightStickY | RightZ
    | DPadX | DPadY
    | Other

  datatype MouseButton = Left | Right | Middle | Back | Forward | Other(code: Winit.u16)

  datatype GamepadButton =
    | South | East | North | West | C | Z
    | LeftTrigger | LeftTrigger2 | RightTrigger | RightTrigger2
    | Select | Start | Mode | LeftThumb | RightThumb
    | DPadUp | DPadDown | DPadLeft | DPadRight
    | Other

  /** The keyboard identifiers; the same selection of keys as `Winit.KeyCode`. */
  datatype KeyboardButton =
    | Digit0 | Digit1
    | KeyA | KeyD | KeyE | KeyQ | KeyS | KeyW
    | ControlLeft | Enter | ShiftLeft | Space | Tab
    | ArrowDown | ArrowLeft | ArrowRight | ArrowUp
    | Escape | F1

  /** One identifier of any category, tagged with its category. */
  datatype InputEnum =
    | GamepadAxis(gamepadAxis: GamepadAxis)
    | GamepadButton(gamepadButton: GamepadButton)
    | KeyboardButton(keyboardButton: KeyboardButton)
    | MouseButton(mouseButton: MouseButton)
    | MouseAxis(mouseAxis: MouseAxis)

  /** The control categories: the identifier types that state and listeners are keyed by. */
  datatype Category = GamepadAxes | GamepadButtons | KeyboardButtons | MouseButtons | MouseAxes

  function CategoryOf(i: InputEnum): Category
  {
    match i
    case GamepadAxis(_) => GamepadAxes
    case GamepadButton(_) => GamepadButtons
    case KeyboardButton(_) => KeyboardButtons
    case MouseButton(_) => MouseButtons
    case MouseAxis(_) => MouseAxes
  }

  predicate IsGamepad(i: InputEnum)
  {
    i.GamepadAxis? || i.GamepadButton?
  }

  /** Gamepad axes: every known axis keeps its name, an unknown one becomes `Other`. */
  function GamepadAxisFromGilrs(a: Gilrs.Axis): (r: GamepadAxis)
    ensures r == GamepadAxis.Other <==> a == Gilrs.Axis.Unknown
  {
    match a
    case LeftStickX => LeftStickX
    case LeftStickY => LeftStickY
    case LeftZ => LeftZ
    case RightStickX => RightStickX
    case RightStickY => RightStickY
    case RightZ => RightZ
    case DPadX => DPadX
    case DPadY => DPadY
    case Unknown => GamepadAxis.Other
  }

  /** Gamepad buttons: every known button keeps its name, an unknown one becomes `Other`. */
  function GamepadButtonFromGilrs(b: Gilrs.Button): (r: GamepadButton)
    ensures r == GamepadButton.Other <==> b == Gilrs.Button.Unknown
  {
    match b
    case South => South
    case East => East
    case North => North
    case West => West
    case C => C
    case Z => Z
    case LeftTrigger => LeftTrigger
    case LeftTrigger2 => LeftTrigger2
    case RightTrigger => RightTrigger
    case RightTrigger2 => RightTrigger2
    case Select => Select
    case Start => Start
    case Mode => Mode
    case LeftThumb => LeftThumb
    case RightThumb => RightThumb
    case DPadUp => DPadUp
    case DPadDown => DPadDown
    case DPadLeft => DPadLeft
    case DPadRight => DPadRight
    case Unknown => GamepadButton.Other
  }

  /** Mouse buttons: a one-to-one renaming; `Other` keeps its code. */
  function MouseButtonFromWinit(b: Winit.MouseButton): (r: MouseButton)
    ensures r.Other? <==> b.Other?
    ensures r.Other? ==> r.code == b.code
  {
    match b
    case Left => Left
    case Right => Right
    case Middle => Middle
    case Back => Back
    case Forward => Forward
    case Other(code) => MouseButton.Other(code)
  }

  /**
   * Keyboard keys: every listed key keeps its name; a code with no arm in
   * the table is the panic of the catch-all arm, here `None`.
   */
  function KeyboardFromWinit(k: Winit.KeyCode): (r: Option<KeyboardButton>)
    ensures r.None? <==> k.Unlisted?
  {
    match k
    case Digit0 => Some(Digit0)
    case Digit1 => Some(Digit1)
    case KeyA => Some(KeyA)
    case KeyD => Some(KeyD)
    case KeyE => Some(KeyE)
    case KeyQ => Some(KeyQ)
    case KeyS => Some(KeyS)
    case KeyW => Some(KeyW)
    case ControlLeft => Some(ControlLeft)
    case Enter => Some(Enter)
    case ShiftLeft => Some(ShiftLeft)
    case Space => Some(Space)
    case Tab => Some(Tab)
    case ArrowDown => Some(ArrowDown)
    case ArrowLeft => Some(ArrowLeft)
    case ArrowRight => Some(ArrowRight)
    case ArrowUp => Some(ArrowUp)
    case Escape => Some(Escape)
    case F1 => Some(F1)
    case Unlisted(_) => None
  }

  // Reference tables: each identifier back to the library's same-named one.
  // They are not part of the store; the round-trip lemmas below use them to
  // say that the translations keep names and lose nothing.

  function GamepadAxisToGilrs(a: GamepadAxis): Gilrs.Axis
  {
    match a
    case LeftStickX => Gilrs.Axis.LeftStickX
    case LeftStickY => Gilrs.Axis.LeftStickY
    case LeftZ => Gilrs.Axis.LeftZ
    case RightStickX => Gilrs.Axis.RightStickX
    case RightStickY => Gilrs.Axis.RightStickY
    case RightZ => Gilrs.Axis.RightZ
    case DPadX => Gilrs.Axis.DPadX
    case DPadY => Gilrs.Axis.DPadY
    case Other => Gilrs.Axis.Unknown
  }

  function GamepadButtonToGilrs(b: GamepadButton): Gilrs.Button
  {
    match b
    case South => Gilrs.Button.South
    case East => Gilrs.Button.East
    case North => Gilrs.Button.North
    case West => Gilrs.Button.West
    case C => Gilrs.Button.C
    case Z => Gilrs.Button.Z
    case LeftTrigger => Gilrs.Button.LeftTrigger
    case LeftTrigger2 => Gilrs.Button.LeftTrigger2
    case RightTrigger => Gilrs.Button.RightTrigger
    case RightTrigger2 => Gilrs.Button.RightTrigger2
    case Select => Gilrs.Button.Select
    case Start => Gilrs.Button.Start
    case Mode => Gilrs.Button.Mode
    case LeftThumb => Gilrs.Button.LeftThumb
    case RightThumb => Gilrs.Button.RightThumb
    case DPadUp => Gilrs.Button.DPadUp
    case DPadDown => Gilrs.Button.DPadDown
    case DPadLeft => Gilrs.Button.DPadLeft
    case DPadRight => Gilrs.Button.DPadRight
    case Other => Gilrs.Button.Unknown
  }

  function MouseButtonToWinit(b: MouseButton): Winit.MouseButton
  {
    match b
    case Left => Winit.MouseButton.Left
    case Right => Winit.MouseButton.Right
    case Middle => Winit.MouseButton.Middle
    case Back => Winit.MouseButton.Back
    case Forward => Winit.MouseButton.Forward
    case Other(code) => Winit.MouseButton.Other(code)
  }

  function KeyboardToWinit(k: KeyboardButton): Winit.KeyCode
  {
    match k
    case Digit0 => Winit.KeyCode.Digit0
    case Digit1 => Winit.KeyCode.Digit1
    case KeyA => Winit.KeyCode.KeyA
    case KeyD => Winit.KeyCode.KeyD
    case KeyE => Winit.KeyCode.KeyE
    case KeyQ => Winit.KeyCode.KeyQ
    case KeyS => Winit.KeyCode.KeyS
    case KeyW => Winit.KeyCode.KeyW
    case ControlLeft => Winit.KeyCode.ControlLeft
    case Enter => Winit.KeyCode.Enter
    case ShiftLeft => Winit.KeyCode.ShiftLeft
    case Space => Winit.KeyCode.Space
    case Tab => Winit.KeyCode.Tab
    case ArrowDown => Winit.KeyCode.ArrowDown
    case ArrowLeft => Winit.KeyCode.ArrowLeft
    case ArrowRight => Winit.KeyCode.ArrowRight
    case ArrowUp => Winit.KeyCode.ArrowUp
    case Escape => Winit.KeyCode.Escape
    case F1 => Winit.KeyCode.F1
  }

  /** Every gamepad axis the library reports is recovered from its translation. */
  lemma GamepadAxisFromGilrsKeepsName(a: Gilrs.Axis)
    ensures GamepadAxisToGilrs(GamepadAxisFromGilrs(a)) == a
  {
  }

  /** Every gamepad axis of the store is the translation of some library axis. */
  lemma GamepadAxisFromGilrsOnto(a: GamepadAxis)
    ensures GamepadAxisFromGilrs(GamepadAxisToGilrs(a)) == a
  {
  }

  lemma GamepadButtonFromGilrsKeepsName(b: Gilrs.Button)
    ensures GamepadButtonToGilrs(GamepadButtonFromGilrs(b)) == b
  {
  }

  lemma GamepadButtonFromGilrsOnto(b: GamepadButton)
    ensures GamepadButtonFromGilrs(GamepadButtonToGilrs(b)) == b
  {
  }

  /** The mouse-button translation is a bijection: both round trips are the identity. */
  lemma MouseButtonFromWinitBijective(w: Winit.MouseButton, b: MouseButton)
    ensures MouseButtonToWinit(MouseButtonFromWinit(w)) == w
    ensures MouseButtonFromWinit(MouseButtonToWinit(b)) == b
  {
  }

  /** Every listed key code translates to the same-named key. */
  lemma KeyboardFromWinitKeepsName(k: Winit.KeyCode)
    requires !k.Unlisted?
    ensures KeyboardFromWinit(k).Some? && KeyboardToWinit(KeyboardFromWinit(k).value) == k
  {
  }

  /** Every keyboard key of the store is reached, so no key is unreadable. */
  lemma KeyboardFromWinitOnto(b: KeyboardButton)
    ensures KeyboardFromWinit(KeyboardToWinit(b)) == Some(b)
  {
  }

  /** Two key codes that translate to the same key are the same code. */
  lemma KeyboardFromWinitInjective(k1: Winit.KeyCode, k2: Winit.KeyCode)
    requires KeyboardFromWinit(k1).Some? && KeyboardFromWinit(k1) == KeyboardFromWinit(k2)
    ensures k1 == k2
  {
  }
}
