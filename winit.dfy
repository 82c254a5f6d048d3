/**
 * The part of the windowing library's event vocabulary that the input store
 * reads. Only the shapes of the events matter to the store; window handles,
 * device ids, modifiers and the other fields it never looks at are dropped.
 * Floating-point coordinates and deltas are modelled as `real`.
 */
module Winit {

  /** A 16-bit unsigned code, as carried by `MouseButton::Other`. */
  newtype u16 = x: int | 0 <= x < 0x1_0000

  /** Whether a key or button went down or up. */
  datatype ElementState = Pressed | Released

  /**
   * Physical key codes. The library's list is long and open-ended; this model
   * keeps a representative selection, and `Unlisted` stands for every code
   * that the store's translation table has no arm for.
   */
  datatype KeyCode =
    | Digit0 | Digit1
    | KeyA | KeyD | KeyE | KeyQ | KeyS | KeyW
    | ControlLeft | Enter | ShiftLeft | Space | Tab
    | ArrowDown | ArrowLeft | ArrowRight | ArrowUp
    | Escape | F1
    | Unlisted(raw: nat)

  /** A key as the platform reports it: a known code, or an unidentified native one. */
  datatype PhysicalKey = Code(code: KeyCode) | Unidentified(native: nat)

  datatype MouseButton = Left | Right | Middle | Back | Forward | Other(code: u16)

  /** Wheel movement, in lines or in pixels. */
  datatype MouseScrollDelta = LineDelta(x: real, y: real) | PixelDelta(px: real, py: real)

  /** Window events; everything the store ignores is `OtherWindowEvent`. */
  datatype WindowEvent =
    | KeyboardInput(physicalKey: PhysicalKey, state: ElementState)
    | MouseInput(buttonState: ElementState, button: MouseButton)
    | MouseWheel(delta: MouseScrollDelta)
    | CursorMoved(x: real, y: real)
    | OtherWindowEvent

  /** Raw device events; only relative mouse motion is read. */
  datatype DeviceEvent = MouseMotion(dx: real, dy: real) | OtherDeviceEvent

  /** The top-level event delivered by the event loop. */
  datatype Event = Window(windowEvent: WindowEvent) | Device(deviceEvent: DeviceEvent) | OtherEvent
}
