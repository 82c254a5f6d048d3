/**
 * The part of the gamepad library's vocabulary that the input store reads:
 * button and axis identifiers and the kinds of hardware event it drains.
 */
module Gilrs {

  datatype Button =
    | South | East | North | West | C | Z
    | LeftTrigger | LeftTrigger2 | RightTrigger | RightTrigger2
    | Select | Start | Mode | LeftThumb | RightThumb
    | DPadUp | DPadDown | DPadLeft | DPadRight
    | Unknown

  datatype Axis =
    | LeftStickX | LeftStickY | LeftZ
    | RightStickX | RightStickY | RightZ
    | DPadX | DPadY
    | Unknown

  /** A pending hardware event; kinds the store ignores are `OtherEventType`. */
  datatype EventType =
    | ButtonPressed(pressed: Button)
    | ButtonReleased(released: Button)
    | AxisChanged(axis: Axis, value: real)
    | OtherEventType
}
