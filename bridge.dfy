/** Types shared by every device channel wrapper: native handles, raw
    context pointers, status translation, and the ledger that records which
    double-boxed closures are allocated, which of them the native library holds,
    and the ordered trace of native calls and context releases. */
module Bridge {

  /** An opaque native channel handle (PhidgetSoundSensorHandle, ...). */
  type Handle = nat

  /** The address of a double-boxed closure; Box::into_raw never yields null. */
  type CtxId = nat

  /** The identity of a user closure; closures are opaque here. */
  type ClosureId = nat

  /** An f64 payload, kept as its bit pattern; nothing is computed with it. */
  type F64 = bv64

  datatype Option<T> = None | Some(value: T)

  /** A raw `*mut c_void` context pointer as the native library hands it back. */
  datatype Ptr = Null | Addr(id: CtxId)

  /** A phidget22 return code other than success. */
  datatype Error = Error(code: int)

  datatype Result<T> = Ok(value: T) | Err(error: Error)

  /** The phidget22 success code. */
  const EPHIDGET_OK: int := 0

  /** The status a translated result came from. */
  function StatusOf(r: Result<()>): int
  {
    if r.Ok? then EPHIDGET_OK else r.error.code
  }

  /** Translation of a native status into a Rust result (ReturnCode::result and
      check_ret): success becomes Ok, every other code an error carrying it. */
  function CheckRet(rc: int): (r: Result<()>)
    ensures r.Ok? <==> rc == EPHIDGET_OK
    ensures r.Err? ==> r.error.code == rc
    ensures StatusOf(r) == rc
  {
    if rc == EPHIDGET_OK then Ok(()) else Err(Error(rc))
  }

  /** The kinds of event a channel can deliver; `Some(k)` as a registered
      function stands for the trampoline of kind k. */
  datatype EventKind = Attach | Detach | SplChange | TemperatureChange

  /** One entry of the trace: a native call with the status it returned, or
      an action of the managed side on a context (allocation, release). */
  datatype Event =
    | Create(h: Handle)
    | SetHandler(h: Handle, kind: EventKind, fn: Option<EventKind>, context: Ptr, rc: int)
    | IsOpen(h: Handle, open: Result<bool>)
    | Close(h: Handle, rc: int)
    | Delete(h: Handle, rc: int)
    | Alloc(ctx: CtxId, closure: ClosureId)
    | Release(ctx: CtxId)

  /** live: the contexts allocated and not yet released, with the closure each
      boxes; registered: the context the native library holds per event kind;
      trace: everything that happened, oldest first. */
  datatype Ledger = Ledger(live: map<CtxId, ClosureId>, registered: map<EventKind, CtxId>, trace: seq<Event>)

  const EmptyLedger: Ledger := Ledger(map[], map[], [])

  /** An allocation yields an address not currently live; a release is only
      of a live context (anything else is a double free). */
  predicate Permitted(l: Ledger, e: Event)
  {
    match e
    case Alloc(ctx, _) => ctx !in l.live
    case Release(ctx) => ctx in l.live
    case _ => true
  }

  /** The effect of one event. A failed native call changes no registration;
      a successful registration with a function and a context installs that
      context, one with no function or a null context removes the kind; a
      successful delete ends every registration of the handle. */
  function Step(l: Ledger, e: Event): Ledger
    requires Permitted(l, e)
  {
    var trace := l.trace + [e];
    match e
    case Alloc(ctx, f) => l.(live := l.live[ctx := f], trace := trace)
    case Release(ctx) => l.(live := l.live - {ctx}, trace := trace)
    case SetHandler(_, kind, fn, ctx, rc) =>
      if rc != EPHIDGET_OK then l.(trace := trace)
      else if fn.None? || ctx.Null? then l.(registered := l.registered - {kind}, trace := trace)
      else l.(registered := l.registered[kind := ctx.id], trace := trace)
    case Delete(_, rc) =>
      if rc == EPHIDGET_OK then l.(registered := map[], trace := trace) else l.(trace := trace)
    case _ => l.(trace := trace)
  }

  /** The release events of one slot: none for an empty slot. */
  function ReleaseOf(slot: Option<CtxId>): seq<Event>
  {
    if slot.Some? then [Release(slot.value)] else []
  }

  /** Releasing what a slot held once it has been taken (drop_cb). */
  function ReleaseSlot(l: Ledger, slot: Option<CtxId>): (m: Ledger)
    requires slot.Some? ==> slot.value in l.live
    ensures m.registered == l.registered
    ensures m.trace == l.trace + ReleaseOf(slot)
    ensures m.live == if slot.Some? then l.live - {slot.value} else l.live
  {
    if slot.Some? then Step(l, Release(slot.value)) else l
  }

  /** No context the native library may still call back with has been freed. */
  predicate NoDangling(l: Ledger)
  {
    forall k :: k in l.registered ==> l.registered[k] in l.live
  }

  /** The number of occurrences of an event in a trace. */
  function Count(t: seq<Event>, e: Event): nat
  {
    if t == [] then 0 else (if t[0] == e then 1 else 0) + Count(t[1..], e)
  }

  lemma {:induction false} CountAppend(a: seq<Event>, b: seq<Event>, e: Event)
    ensures Count(a + b, e) == Count(a, e) + Count(b, e)
  {
    if a == [] {
      assert a + b == b;
    } else {
      assert (a + b)[1..] == a[1..] + b;
      CountAppend(a[1..], b, e);
    }
  }

  lemma CountReleaseOf(slot: Option<CtxId>, e: Event)
    ensures Count(ReleaseOf(slot), e) == if slot.Some? && e == Release(slot.value) then 1 else 0
  {
  }
}
