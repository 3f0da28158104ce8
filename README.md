# phidget-rs callback slots and teardown, in Dafny

This project models the part of the `phidget-rs` bindings that bridges Rust
closures to the callback-driven phidget22 C library, for two device channels:
the sound sensor (`SoundSensor`, three callback slots) and the temperature
sensor (`TemperatureSensor`, one slot). A channel owns a native handle and a
few `Option<*mut c_void>` slots. Each slot holds the address of a double-boxed
closure, called a context here. The model covers:

- registering a handler (allocate a context, store it, call the native
  registration; the store/call order differs per slot);
- removing a handler (native unregistration, then release of the slot);
- the trampolines the native library calls (ignore a null context, otherwise
  call the boxed closure with a non-owning view that is forgotten, not dropped);
- teardown (`Drop`): optionally close, delete the handle, then release every slot.

## Structure

- `bridge.dfy`, module `Bridge`: handles, raw context pointers (`Ptr`), the
  status translation `CheckRet`, and the `Ledger`. The ledger records three
  things. `live` is the set of allocated, unreleased contexts, each with the
  closure it boxes. `registered` is the context the native library holds for
  each event kind. `trace` is the ordered list of native calls, with the
  status each returned, and of context allocations and releases. `Step` gives
  the effect of one event. A release is only permitted for a live context, so
  every proof that a method verifies is also a proof that it never frees one
  context twice.
- `temperature_sensor.dfy`, module `Temperature`, and `sound_sensor.dfy`,
  module `Sound`. Each has a datatype holding the struct's fields plus its
  ledger, and pure transition functions (`HandlerSet`, `TornDown`, ...) whose
  contracts state what each operation does. Lemmas relate several
  operations. The class (`TemperatureSensor`, `SoundSensor`) has the struct's
  fields as mutable fields and a ghost `ledger`. Each method is proved to move
  `Model()` exactly as its transition function says. The trampolines are
  static methods that change nothing and return the closure invocation they
  make.

Named terms:

- A *leak* is a live context that no slot holds any more (`Leaked`).
- A *dangling* context is one the native library still holds after it has
  been released. `NoDangling` says there is none.

Native calls other than create are helper methods (`NativeSetHandler`,
`NativeDelete`, ...). Each one appends the call to the trace and returns a
status chosen freely (`rc := *`). Create is folded into the constructors
`New`: the handle is chosen freely and the trace records `Create(h)`, with no
status, because the source discards create's return code
(src/temperature_sensor.rs:34, src/devices/sound_sensor.rs:46).

Nothing in the code shown here says how the native library responds to these
calls. The model's registration state (`Step`) rests on these assumptions:

- a failed call changes nothing;
- a successful registration with a function and a context installs that context;
- a successful registration with no function or with a null context removes the handler;
- a successful delete ends all callbacks for the handle.

The allocator's result is a parameter `ctx` of each `set_on_*_handler`
method. The method requires `ctx !in ledger.live`, which is the allocator's
guarantee that a fresh box is not at a live address. Released addresses may
be handed out again.

## Hazards in the code as written

The model exposes these behaviours of the code and does not repair them.

- Registering over an occupied slot overwrites it without releasing the old
  context, which then leaks. This happens in all four setters
  (src/temperature_sensor.rs:87, src/devices/sound_sensor.rs:124, 148 and 164).
  See `HandlerSet`, `SplChangeSet`, `AttachSet`, `DetachSet` and `ReRegisterLeaks`.
- `set_on_attach_handler` and `set_on_detach_handler` leak the fresh context
  when the native registration fails. The `?` returns before the context is
  stored (src/devices/sound_sensor.rs:145-148 and 161-164). See `AttachFailureLeaks`.
- The temperature sensor's `Drop` deletes the handle and then releases the
  slot. It never calls close (src/temperature_sensor.rs:125-131). The sound
  sensor's `Drop` closes only when `is_open()` returns `Ok(true)`
  (src/devices/sound_sensor.rs:199-201).
- In `on_spl_change` the slice comes from `from_raw_parts(octaves, 10)`
  (src/devices/sound_sensor.rs:84-85). It always has ten elements, so the
  `try_into` that follows cannot fail. If the native buffer were shorter, the
  result would be an out-of-bounds read, not a panic. `OnSplChange` therefore
  requires ten readable values when the context is non-null, and its failure
  branch is proved unreachable.
- Removal and teardown release contexts whatever the native status
  (src/temperature_sensor.rs:99-110 and 125-131, src/devices/sound_sensor.rs:202-206).
  When unregistration or delete fails, the native library may still hold
  the released context. See `RemoveSafeIffUnregistered` and the two
  `TornDownSafeIffDeleted` lemmas.

## Model

| member | source | states |
|---|---|---|
| `Bridge.CheckRet` | src/temperature_sensor.rs:89-95 | a status is Ok exactly when it is the success code; an error carries the code, so the status is recoverable from the result |
| `Bridge.ReleaseSlot` | src/devices/sound_sensor.rs:204-206 | releasing a taken slot frees exactly the context it held (none for an empty slot) and appends exactly that release to the trace |
| `Temperature.Created` | src/temperature_sensor.rs:31-37 | `new` yields an empty slot, nothing leaked, and a trace holding only the create call |
| `Temperature.View` | src/temperature_sensor.rs:48 | the trampoline's view has an empty slot and owns no context |
| `Temperature.CallbackDropped` | src/temperature_sensor.rs:56-60 | afterwards the slot is empty; exactly the stored context is released and every other live context keeps its closure, and nothing happens when the slot was already empty; the leak set is unchanged |
| `Temperature.HandlerSet` | src/temperature_sensor.rs:80-96 | the new context is stored whatever the status; alloc precedes the native registration in the trace; the registration holds only on success; a previously stored context becomes leaked; no dangling context is introduced |
| `Temperature.HandlerRemoved` | src/temperature_sensor.rs:99-110 | the native unregistration with no function and a null context comes first, then the release of the stored context, whatever the status; the slot is empty afterwards; on success only this event's registration is removed, and on failure the handler stays registered |
| `Temperature.TornDown` | src/temperature_sensor.rs:125-131 | delete, then the release of the stored context; no close call; empty slot afterwards; the native registrations are cleared exactly when delete succeeded, so no dangling context then |
| `Temperature.CallbackDroppedIdempotent` | src/temperature_sensor.rs:56-60 | dropping the callback twice is the same as once |
| `Temperature.RemoveTwiceReleasesOnce` | src/temperature_sensor.rs:99-110 | after register, remove, remove, the context is not live and the trace releases it exactly once |
| `Temperature.RegisterRemoveRegister` | src/temperature_sensor.rs:80-110 | from an empty slot, register/remove/register leaves exactly one context of the slot live after each register and none after the remove |
| `Temperature.ReRegisterLeaks` | src/temperature_sensor.rs:85-87 | a second registration leaves the first context live and in no slot |
| `Temperature.RemoveSafeIffUnregistered` | src/temperature_sensor.rs:99-110 | after a successful registration, removal leaves no dangling context if and only if the native unregistration succeeded |
| `Temperature.TornDownSafeIffDeleted` | src/temperature_sensor.rs:125-131 | after a successful registration, teardown leaves no dangling context if and only if delete succeeded |
| `Temperature.TemperatureSensor.New` | src/temperature_sensor.rs:31-37 | `new` builds the state `Created` describes, over the handle create wrote |
| `Temperature.TemperatureSensor.DropCallback` | src/temperature_sensor.rs:56-60 | the new state is `CallbackDropped` of the old |
| `Temperature.TemperatureSensor.SetOnTemperatureChangeHandler` | src/temperature_sensor.rs:80-96 | the new state is `HandlerSet` of the old, with the status the native call returned, and the result is that status translated |
| `Temperature.TemperatureSensor.RemoveOnTemperatureChangeHandler` | src/temperature_sensor.rs:99-110 | the new state is `HandlerRemoved` of the old, and the result is the unregistration status translated |
| `Temperature.TemperatureSensor.Drop` | src/temperature_sensor.rs:125-131 | the new state is `TornDown` of the old, with the status delete returned |
| `Temperature.RegisteredDelivers` | src/temperature_sensor.rs:41-52 | after a successful registration of a closure, the native library holds a live context, and an event delivered with it calls exactly that closure, with a view over the sensor's handle and the temperature unchanged |
| `Temperature.TemperatureSensor.OnTemperatureChange` | src/temperature_sensor.rs:41-52 | the call made is `Delivered` of the arguments: a null context calls nothing; otherwise the closure boxed at the context is called once with the view `{ chan, cb: None }` and the temperature unchanged |
| `Sound.FromHandle` | src/devices/sound_sensor.rs:186-194 | all three slots empty, nothing owned, nothing done |
| `Sound.Created` | src/devices/sound_sensor.rs:43-49 | `new` is create then `from`: empty slots, nothing leaked, only the create call in the trace |
| `Sound.SplChangeSet` | src/devices/sound_sensor.rs:117-134 | `cb` holds the new context whatever the status; the other slots are untouched; the registration holds only on success; a previous `cb` context becomes leaked |
| `Sound.AttachSet` | src/devices/sound_sensor.rs:137-150 | `attach_cb` holds the new context if and only if registration succeeded, else is unchanged; on failure the fresh context is leaked, on success a previous one is |
| `Sound.DetachSet` | src/devices/sound_sensor.rs:153-166 | the same for `detach_cb` |
| `Sound.TornDown` | src/devices/sound_sensor.rs:197-208 | open query, close only after `Ok(true)`, delete, then releases of `cb`, `attach_cb`, `detach_cb` in that order; all slots empty; exactly the stored contexts freed; the native registrations are cleared exactly when delete succeeded, so no dangling context then |
| `Sound.TornDownOrder` | src/devices/sound_sensor.rs:199-206 | in the teardown trace nothing before delete is a release, everything after it is, and a close appears if and only if the open query answered `Ok(true)` |
| `Sound.TornDownReleasesOnce` | src/devices/sound_sensor.rs:203-206 | teardown releases each stored context exactly once and no other context |
| `Sound.TornDownSafeIffDeleted` | src/devices/sound_sensor.rs:197-208 | after a successful attach registration, teardown leaves no dangling context if and only if delete succeeded |
| `Sound.DroppingViewDeletes` | src/devices/sound_sensor.rs:55-57 | the view a trampoline builds shares the owning sensor's handle and owns no context, and dropping it rather than forgetting it would delete that shared handle |
| `Sound.AttachFailureLeaks` | src/devices/sound_sensor.rs:142-149 | after a failed attach registration and a successful one, the first context is leaked and the slot holds the second |
| `Sound.TryIntoOctaves` | src/devices/sound_sensor.rs:84-85 | the conversion succeeds exactly for ten values and keeps them |
| `Sound.SoundSensor.From` | src/devices/sound_sensor.rs:186-194 | the new object's state is `FromHandle(chan)` |
| `Sound.SoundSensor.New` | src/devices/sound_sensor.rs:43-49 | the new object's state is `Created` over the handle create wrote |
| `Sound.SoundSensor.SetOnSplChangeHandler` | src/devices/sound_sensor.rs:117-134 | the new state is `SplChangeSet` of the old with the native status, and the result is that status translated |
| `Sound.SoundSensor.SetOnAttachHandler` | src/devices/sound_sensor.rs:137-150 | the new state is `AttachSet` of the old with the native status, and the result is that status translated |
| `Sound.SoundSensor.SetOnDetachHandler` | src/devices/sound_sensor.rs:153-166 | the new state is `DetachSet` of the old with the native status, and the result is that status translated |
| `Sound.SoundSensor.Drop` | src/devices/sound_sensor.rs:197-208 | the new state is `TornDown` of the old with the native answers to is-open, close and delete |
| `Sound.SplChangeRegisteredDelivers` | src/devices/sound_sensor.rs:73-90 | after a successful SPL-change registration of a closure, the native library holds a live context, and an event delivered with it calls exactly that closure with the dB values unchanged and the first ten octave values |
| `Sound.AttachRegisteredDelivers` | src/devices/sound_sensor.rs:52-59 | after a successful attach registration of a closure, an attach event delivered with the context the native library holds calls exactly that closure, with the view `from(phid)` |
| `Sound.DetachRegisteredDelivers` | src/devices/sound_sensor.rs:62-69 | the same for a detach registration and a detach event |
| `Sound.SoundSensor.OnAttach` | src/devices/sound_sensor.rs:52-59 | the call made is `AttachDelivered` of the arguments: a null context calls nothing; otherwise the boxed closure is called once with the view `from(phid)` |
| `Sound.SoundSensor.OnDetach` | src/devices/sound_sensor.rs:62-69 | the call made is `DetachDelivered` of the arguments; the same as `OnAttach` for the detach closure |
| `Sound.SoundSensor.OnSplChange` | src/devices/sound_sensor.rs:73-90 | the call made is `SplChangeDelivered` of the arguments: a null context calls nothing and reads no octaves; otherwise the closure gets the view, the three dB values unchanged and exactly the first ten octave values |

## Left out

- The phidget22 calls themselves (`*_delete`, `*_set*Handler`, `getIsOpen`, `close`). They are foreign code; each is a helper that records the call and returns an arbitrary status.
- A failed `*_create`. The source discards its return code, so on failure `chan` stays null and every later native call gets a null handle. The constructors `New` always pick some handle and record no create status, so this path is not represented.
- Temperature.TemperatureSensor.OnTemperatureChange: requires the context, when it is not null, to be live. A callback that arrives with an already released context is a use-after-free in the source, and the model does not represent it. `RemoveSafeIffUnregistered` and `TornDownSafeIffDeleted` show when the native library can still hold such a context.
- Sound.SoundSensor.OnAttach: requires a non-null context to be live, so a callback into freed memory is not represented (see `Sound.TornDownSafeIffDeleted`).
- Sound.SoundSensor.OnDetach: requires a non-null context to be live, so a callback into freed memory is not represented.
- Sound.SoundSensor.OnSplChange: requires a non-null context to be live, so a callback into freed memory is not represented. It also requires at least ten octave values when the context is non-null. A native buffer shorter than ten values is an out-of-bounds read in `from_raw_parts`, and the model does not represent it.
- The double `Box`, `Box::into_raw`/`from_raw` and the pointer casts. A context is an opaque address (`CtxId`) with membership in the ledger's `live` map; memory layout is not expressible here.
- Allocation failure, which aborts the process in Rust.
- What delete writes back through `&mut self.chan`: the model keeps the handle value.
- `unsafe impl Send`, and trampolines running on the native library's threads at the same time as registration or teardown. This is concurrency resting on a guarantee the authors assert by hand.
- The closures' own effects. A closure is an opaque identity. Anything it does with the `&mut` view it receives (for example registering a handler on the view) is not modelled.
- f64 payloads (dB values, temperature). They are opaque bit patterns, passed on unchanged.
- The readings `db`, `db_a`, `db_c` and `temperature`, and the accessors `as_channel`, `as_handle` and `as_mut_handle`. They are foreign reads or plain field access; `db_a` and `db_c` are `unimplemented!()`.
- The rest of the `Phidget` trait (`open_wait`, hub and serial selectors) and the crate-level `ReturnCode`/`check_ret` tables. `CheckRet` models only the success/failure split and keeps the code.
- `Default`, which is `new`.
- `examples/temperature.rs`: argument parsing, Ctrl-C handling and thread parking.
- Rust ownership ends an object's life at `Drop`. In the model the object can still be used after `Drop()`; nothing relies on this.
