/**
 * The input store object. Its fields are the state the store keeps behind
 * its lock; every method is proved to move that state exactly as the
 * matching function of module InputSpec does, so the lemmas proved there
 * hold of the object.
 *
 * Listener objects are outside the model: calling a listener's `hear` is
 * recorded by appending to the ghost log `heard`.
 */
module InputStore {
  import opened Controls
  import opened InputSpec
  import Winit
  import Gilrs

  class Input {
    /** The state of every control written so far. */
    var inputs: map<InputEnum, real>
    /** The listener registry: per category, the listeners in registration order. */
    var listeners: map<Category, seq<ListenerId>>
    /** The flag that gates draining the gamepad backend. */
    var updated: bool
    /** The gamepad backend's pending hardware events, oldest first. */
    var gilrs: seq<Gilrs.EventType>
    /** Every `hear` call made so far, oldest first. */
    ghost var heard: seq<Notification>

    ghost function Model(): Snapshot
      reads this
    {
      Snapshot(inputs, listeners, updated, gilrs, heard)
    }

    /** A new store over a gamepad backend that holds `pending`. */
    constructor (pending: seq<Gilrs.EventType>)
      ensures Model() == Init(pending)
    {
      inputs := map[];
      listeners := map[];
      updated := false;
      gilrs := pending;
      heard := [];
    }

    method RegisterListener(c: Category, l: ListenerId)
      modifies this
      ensures Model() == InputSpec.RegisterListener(old(Model()), c, l)
    {
      var current := if c in listeners then listeners[c] else [];
      listeners := listeners[c := current + [l]];
    }

    /** The state of a control; 0 for one never written. */
    method GetF32(i: InputEnum) returns (r: real)
      ensures r == Read(inputs, i)
      ensures i !in inputs ==> r == 0.0
    {
      r := if i in inputs then inputs[i] else 0.0;
    }

    /** Whether a control's state differs from 0. */
    method GetBool(i: InputEnum) returns (b: bool)
      ensures b == ReadBool(inputs, i)
      ensures b <==> i in inputs && inputs[i] != 0.0
    {
      var r := GetF32(i);
      b := r != 0.0;
    }

    /** Calls `hear` on every listener of the identifier's category, in registration order. */
    method YellListeners(i: InputEnum, v: real)
      modifies this`heard
      ensures heard == old(heard) + Notify(ListenersOf(listeners, CategoryOf(i)), i, v)
    {
      var ls := if CategoryOf(i) in listeners then listeners[CategoryOf(i)] else [];
      for n := 0 to |ls|
        invariant heard == old(heard) + Notify(ls[..n], i, v)
      {
        assert ls[..n + 1][..n] == ls[..n];
        heard := heard + [Heard(ls[n], i, v)];
      }
      assert ls[..|ls|] == ls;
    }

    /** A single write, then the listeners of its category. */
    method SetInput(i: InputEnum, v: real)
      modifies this
      ensures Model() == InputSpec.SetInput(old(Model()), i, v)
    {
      inputs := inputs[i := v];
      YellListeners(i, v);
    }

    /** A batch write, pair by pair; no listener is called. */
    method SetInputs(batch: Batch)
      modifies this
      ensures Model() == InputSpec.SetInputs(old(Model()), batch)
    {
      for n := 0 to |batch|
        invariant inputs == Extend(old(inputs), batch[..n])
        invariant listeners == old(listeners) && updated == old(updated)
        invariant gilrs == old(gilrs) && heard == old(heard)
      {
        assert batch[..n + 1][..n] == batch[..n];
        inputs := inputs[batch[n].0 := batch[n].1];
      }
      assert batch[..|batch|] == batch;
    }

    /**
     * One windowing event: the push path, then the gamepad drain if the flag
     * is up. `panicked` is the abort on a key code the translation table does
     * not list, which happens before anything is written.
     */
    method Event(e: Winit.Event) returns (panicked: bool)
      modifies this
      ensures panicked <==> Ingest(old(Model()), e).None?
      ensures Model() == if panicked then old(Model()) else Ingest(old(Model()), e).value
    {
      panicked := false;
      match e {
        case Window(we) =>
          match we {
            case KeyboardInput(pk, st) =>
              if pk.Code? {
                var key := KeyboardFromWinit(pk.code);
                if key.None? {
                  panicked := true;
                  return;
                }
                SetInput(KeyboardButton(key.value), PressValue(st));
              }
            case MouseInput(st, b) =>
              SetInput(MouseButton(MouseButtonFromWinit(b)), PressValue(st));
            case MouseWheel(delta) =>
              var (x, y) := match delta
                            case LineDelta(x, y) => (x, y)
                            case PixelDelta(x, y) => (x, y);
              SetInputs([(MouseAxis(WheelDeltaX), x), (MouseAxis(WheelDeltaY), y)]);
            case CursorMoved(x, y) =>
              SetInputs([(MouseAxis(PositionX), x), (MouseAxis(PositionY), y)]);
            case OtherWindowEvent =>
          }
        case Device(de) =>
          match de {
            case MouseMotion(dx, dy) =>
              SetInputs([(MouseAxis(PositionDeltaX), dx), (MouseAxis(PositionDeltaY), dy)]);
            case OtherDeviceEvent =>
          }
        case OtherEvent =>
      }
      assert Model() == Push(old(Model()), e).value;
      if updated {
        ghost var drained := Drain(Model());
        while gilrs != []
          invariant updated
          invariant Drain(Model()) == drained
          decreases |gilrs|
        {
          var ev := gilrs[0];
          gilrs := gilrs[1..];
          match ev {
            case ButtonPressed(b) =>
              SetInput(GamepadButton(GamepadButtonFromGilrs(b)), 1.0);
            case ButtonReleased(b) =>
              SetInput(GamepadButton(GamepadButtonFromGilrs(b)), 0.0);
            case AxisChanged(a, v) =>
              SetInput(GamepadAxis(GamepadAxisFromGilrs(a)), v);
            case OtherEventType =>
          }
        }
        updated := true;
      }
    }

    /** The frame reset: lower the flag and zero the four delta axes, notifying no one. */
    method Reset()
      modifies this
      ensures Model() == InputSpec.Reset(old(Model()))
    {
      updated := false;
      SetInputs([(MouseAxis(PositionDeltaX), 0.0), (MouseAxis(PositionDeltaY), 0.0),
                 (MouseAxis(WheelDeltaX), 0.0), (MouseAxis(WheelDeltaY), 0.0)]);
    }
  }
}
