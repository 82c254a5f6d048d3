# Input state store

This project models the input subsystem of a small game engine written in Rust
(`src/input.rs`). The `Input` object keeps the current state of every control
in one store: keyboard keys, mouse buttons, mouse axes, gamepad buttons and
gamepad axes. It translates windowing events and gamepad hardware events into
writes. It notifies registered listeners on single writes, and it clears the
per-frame delta axes on each frame reset.

Files:

- `winit.dfy` (module `Winit`): the windowing library's event shapes that the store reads.
- `gilrs.dfy` (module `Gilrs`): the gamepad library's identifiers and event kinds.
- `controls.dfy` (module `Controls`): the identifier enums and `InputEnum`, the tagged union over
  them. It also holds `from_winit` / `from_gilrs` as total functions with reference inverse tables
  and round-trip lemmas. Each `into` is the matching `InputEnum` constructor.
- `input_spec.dfy` (module `InputSpec`): the store as a state machine on values. A `Snapshot` holds:
  - the written controls;
  - the listener registry;
  - the `updated` flag;
  - the gamepad backend's pending events;
  - the log of listener notifications.

  Every operation is a function from one snapshot to the next. The lemmas prove what the operations
  guarantee, and `Run` composes calls so that properties of reachable states can be proved.
- `input_store.dfy` (module `InputStore`): the `Input` class. It has fields `inputs`, `listeners`,
  `updated` and `gilrs`, plus a ghost notification log `heard`. Each method is proved to change the
  object exactly as the matching `InputSpec` function does.

The type-erased `TypeId → Box<dyn Any>` table is modelled as one `map<InputEnum, real>`. The key's
constructor is the category, so each category keeps its own identifier space. A control that was
never written reads as 0.

**The gamepad flag.** `updated` starts `false` (src/input.rs:39). `event` reads it with
`fetch_or(false)`, which does not change it (src/input.rs:150). The flag is set to `true` only inside
the block that this read guards (src/input.rs:174), and `reset` stores `false` again
(src/input.rs:191). So the drain loop never runs in any state the program can reach. One might
expect gamepad events to be drained on every call; the code does not do that. The model keeps the
code's behaviour:

- `InputSpec.ReachableNeverDrains` proves that the flag stays down and the gamepad queue is never
  consumed.
- The same lemma proves that every gamepad control keeps reading 0.
- `InputSpec.PendingAxisChangeNotSeen` shows a concrete case: a pending stick movement of 0.6 is
  not visible after the next `event` call.
- `InputSpec.IngestDrainsWhenUpdated` states what the branch would do if the flag were up. It would
  apply the drain's writes (`PadWrites`) in arrival order, log their notifications (`PadLog`), empty
  the queue and keep the flag up.

`InputSpec.Drain` only computes. What it guarantees is stated by the lemmas `DrainEmptiesQueue`,
`DrainWrites`, `DrainKeepsOtherControls` and `DrainLastEventWins`.

## Model

| member | source | states |
|---|---|---|
| `InputStore.Input.constructor` | src/input.rs:31-42 | A new store has no written control and no listener, the flag is down, and the backend holds the given pending events. |
| `InputStore.Input.RegisterListener` | src/input.rs:44-50 | The registry entry becomes the old list (empty if missing) with the listener appended; no other field changes. |
| `InputSpec.RegisterAppends` | src/input.rs:44-50 | Registering appends at the end of that category's list; other categories' lists, the state, the flag, the queue and the log are unchanged. |
| `InputSpec.RegisterTwiceHearsTwice` | src/input.rs:44-50 | No de-duplication: a listener registered twice for a category receives the next write's notification twice, as the last two entries of the log. |
| `InputStore.Input.GetF32` | src/input.rs:52-54 | Returns the stored state, or 0 for a control never written. |
| `InputSpec.ReadUnwritten` | src/input.rs:60-67 | A control absent from the store reads 0 and reads as "off". |
| `InputStore.Input.GetBool` | src/input.rs:56-58 | True exactly when the control was written with a state other than 0. |
| `InputSpec.ReadBoolIsNonZero` | src/input.rs:56-58 | The boolean read is true if and only if the control is present with a non-zero state. |
| `InputStore.Input.SetInput` | src/input.rs:69-82 | The object moves as `InputSpec.SetInput`: insert, then notify the category's listeners. |
| `InputSpec.SetInputWritesAndNotifies` | src/input.rs:69-82 | After a write the control reads the new state and the key set grows by that key only. Every other control, the registry, the flag and the queue are unchanged. Exactly one notification per listener of that category is appended, in registration order, each carrying the written identifier and state. |
| `InputSpec.SetInputWithoutListeners` | src/input.rs:183-187 | With no listener registered for the category, a write leaves the log unchanged. |
| `InputSpec.SetInputOverwrites` | src/input.rs:74-79 | Writing the same control twice leaves one entry, holding the second state. |
| `InputStore.Input.YellListeners` | src/input.rs:178-188 | The loop over the category's listeners appends their notifications to the log in list order. |
| `InputSpec.NotifyInOrder` | src/input.rs:183-187 | The notifications for a listener list have one entry per listener; entry n is that listener's `hear` with the given payload. |
| `InputStore.Input.SetInputs` | src/input.rs:84-94 | The pair-by-pair loop leaves the store equal to the batch applied in order. The registry, the flag, the queue and the log are unchanged. |
| `InputSpec.SetInputsWritesBatch` | src/input.rs:84-94 | A batch write gives each key the state of its last pair in the batch and leaves keys not in the batch unchanged. It adds no notification and touches nothing else. |
| `InputSpec.ExtendLastWins` | src/input.rs:93 | Later pairs for a key overwrite earlier ones, as the map's `extend` does. |
| `InputSpec.ExtendUntouched` | src/input.rs:93 | A key that no pair names keeps its presence and its state. |
| `InputSpec.ExtendKeys` | src/input.rs:93 | After a batch write a key is present exactly when it was before or some pair of the batch names it. |
| `InputStore.Input.Event` | src/input.rs:96-176 | The object moves as `InputSpec.Ingest`. It reports the panic on an unlisted key code and changes nothing in that case. |
| `InputSpec.KeyEventWritesAndNotifies` | src/input.rs:99-107 | A key event for a listed key writes 1 if pressed and 0 if released through the notifying single write. |
| `InputSpec.MouseButtonEventWritesAndNotifies` | src/input.rs:108-114 | A mouse-button event writes 1 if pressed and 0 if released through the notifying single write. |
| `InputSpec.AxisEventWritesTwoAxes` | src/input.rs:115-147 | Wheel (line or pixel), cursor-moved and raw-motion events write exactly their two mouse axes, with the event's values. They notify no one and change nothing else. |
| `InputSpec.IgnoredEventChangesNothing` | src/input.rs:96-149 | Every other event changes nothing on the push path. This includes a key event with an unidentified physical key and the other window and device events. |
| `InputSpec.UnlistedKeyPanics` | src/input.rs:807 | A key code with no arm in the translation table aborts the call before anything is written. |
| `InputSpec.PushLeavesGamepadAlone` | src/input.rs:96-149 | The push path never changes the flag, the queue, the registry or any gamepad control. The log only grows, and no new entry is about a gamepad control. |
| `InputSpec.Push` | src/input.rs:97-149 | The push path aborts exactly on a key event whose code has no arm in the translation table. Otherwise it leaves the registry, the flag and the gamepad queue alone. What each event writes is stated by the lemmas below. |
| `InputSpec.PadWrite` | src/input.rs:153-172 | One pending gamepad event asks for no write exactly when it is of another kind. Every write it asks for is about a gamepad control: pressed button 1, released button 0, axis change its value. |
| `InputSpec.PadStep` | src/input.rs:153-172 | One drained event as a notifying single write; it leaves the queue, the registry and the flag alone. |
| `InputSpec.DrainEmptiesQueue` | src/input.rs:152-173 | The drain loop consumes every pending gamepad event and leaves the registry and the flag alone. |
| `InputSpec.ExtendAppend` | src/input.rs:93 | Two batch writes in a row are one batch write of the concatenated batches. |
| `InputSpec.DrainWrites` | src/input.rs:152-173 | Draining performs exactly one write per pending button or axis event, in arrival order. The store ends as those writes applied in order. The log grows by exactly each write's notifications to the listeners of its category, in the same order. |
| `InputSpec.PadWritesAreGamepad` | src/input.rs:153-172 | Every write of a drain is about a gamepad button or axis. |
| `InputSpec.DrainKeepsOtherControls` | src/input.rs:152-173 | Draining leaves the presence and state of every keyboard and mouse control unchanged. |
| `InputSpec.DrainLastEventWins` | src/input.rs:152-173 | The last pending event naming a gamepad control decides its state, so a press followed by a release leaves 0. |
| `InputSpec.IngestKeepsFlag` | src/input.rs:150-175 | `event` never changes the flag: it stays up if up and down if down. |
| `InputSpec.IngestSkipsDrainWhenNotUpdated` | src/input.rs:150 | With the flag down, `event` is exactly its push path. |
| `InputSpec.IngestDrainsWhenUpdated` | src/input.rs:150-175 | With the flag up, `event` runs the push path and then the drain. The store ends as the drain's writes applied in arrival order, and the log grows by their notifications. The gamepad queue is emptied and the flag stays up. |
| `InputSpec.ApplyKeepsFlagDown` | src/input.rs:96-202 | From a state with the flag down, any registration, event or reset keeps the flag down and leaves the queue and every gamepad control unchanged. |
| `InputSpec.RunKeepsFlagDown` | src/input.rs:96-202 | The same holds for any sequence of calls, by induction on the sequence. |
| `InputSpec.ReachableNeverDrains` | src/input.rs:39 | In every state reachable from construction the flag is down and the backend queue is untouched. Every gamepad control is absent and reads 0. |
| `InputSpec.PendingAxisChangeNotSeen` | src/input.rs:168-169 | A pending stick change of 0.6 still reads 0 after the next `event` on a fresh store. |
| `InputStore.Input.Reset` | src/input.rs:190-202 | The object moves as `InputSpec.Reset`: flag down, then a batch write of 0 to the four delta axes. |
| `InputSpec.ResetZeroesDeltas` | src/input.rs:190-202 | Reset sets the two position-delta and two wheel-delta axes to 0. It leaves every other control's presence and state unchanged, lowers the flag and notifies no one. |
| `Controls.GamepadAxisFromGilrs` | src/input.rs:293-305 | The result is `Other` exactly when the library axis is `Unknown`. |
| `Controls.GamepadAxisFromGilrsKeepsName` | src/input.rs:293-305 | Every library axis maps to its same-named axis (`Unknown` to `Other`), so nothing is lost. |
| `Controls.GamepadAxisFromGilrsOnto` | src/input.rs:280-290 | Every gamepad axis of the store is the translation of its same-named library axis. |
| `Controls.GamepadButtonFromGilrs` | src/input.rs:376-399 | The result is `Other` exactly when the library button is `Unknown`. |
| `Controls.GamepadButtonFromGilrsKeepsName` | src/input.rs:376-399 | Every library button maps to its same-named button (`Unknown` to `Other`). |
| `Controls.GamepadButtonFromGilrsOnto` | src/input.rs:352-373 | Every gamepad button of the store is the translation of its same-named library button. |
| `Controls.MouseButtonFromWinit` | src/input.rs:329-338 | `Other` maps to `Other` with the same code, and only `Other` does. |
| `Controls.MouseButtonFromWinitBijective` | src/input.rs:329-338 | The mouse-button translation and its reference inverse are mutually inverse. |
| `Controls.KeyboardFromWinit` | src/input.rs:611-808 | The translation fails (the panic arm) exactly for key codes the table does not list. |
| `Controls.KeyboardFromWinitKeepsName` | src/input.rs:612-806 | Every listed key code maps to the same-named key. |
| `Controls.KeyboardFromWinitOnto` | src/input.rs:412-608 | Every keyboard key of the store is the translation of its same-named key code. |
| `Controls.KeyboardFromWinitInjective` | src/input.rs:612-806 | Two key codes that translate to the same key are equal. |

## Left out

- Controls.KeyboardFromWinit: covers 19 of the 194 keys: Digit0, Digit1, KeyA, KeyD, KeyE, KeyQ, KeyS, KeyW, ControlLeft, Enter, ShiftLeft, Space, Tab, ArrowDown, ArrowLeft, ArrowRight, ArrowUp, Escape and F1. The other arms of the table (src/input.rs:613-806) are the same name-for-name mapping. `KeyboardButton` and `Winit.KeyCode` list the same 19 keys, and `Winit.KeyCode.Unlisted` stands for every code with no arm.
- The mutex, the `Arc` sharing, `Clone` and the atomic flag (src/input.rs:205-237, 818-825). The model is sequential and `updated` is a plain field, so each call is trivially atomic. Lock poisoning after a panic is not modelled; a panic is taken to end the process, and `Run` stops there.
- Listener code is external. A `hear` call is recorded in the log, and listener panics and re-entrant calls are not modelled. A listener is identified by a number.
- `register_listener::<A>` accepts any `'static` type `A`. The model has only the five control categories. A listener registered under any other type would never be called.
- The gamepad backend (src/input.rs:37, 152). Its startup failure is not modelled. Its pending events are a sequence given to the constructor, and events that arrive later are not modelled.
- `InputState` is `f32`. States are `real`, and the f64-to-f32 casts (src/input.rs:118, 129-130, 143-144) are not modelled.
- The downcast `unwrap`s at src/input.rs:78 and 92 cannot fail. With one typed map they have no counterpart.
- The event fields the store does not read: window and device ids, modifiers, key repeat, text and the like.
