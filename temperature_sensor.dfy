/** The temperature sensor channel: one callback slot for temperature-change
    events, the trampoline that delivers them, and its teardown. */
module Temperature {
  import opened Bridge

  /** The fields of a TemperatureSensor, with the ledger of what it has done. */
  datatype TemperatureState = TemperatureState(chan: Handle, cb: Option<CtxId>, ledger: Ledger)

  /** A stored context is always a live allocation. */
  predicate WellFormed(s: TemperatureState)
  {
    s.cb.Some? ==> s.cb.value in s.ledger.live
  }

  /** The context held in the slot, as a set. */
  function Held(s: TemperatureState): set<CtxId>
  {
    if s.cb.Some? then {s.cb.value} else {}
  }

  /** Live contexts that no slot refers to any more: nothing will free them. */
  function Leaked(s: TemperatureState): set<CtxId>
  {
    s.ledger.live.Keys - Held(s)
  }

  /** The invocation of a user closure by the trampoline. */
  datatype TemperatureCall = TemperatureCall(closure: ClosureId, sensor: TemperatureState, temperature: F64)

  /** `Self { chan, cb: None }`: a sensor over a handle, owning no context and
      having done nothing. */
  function View(chan: Handle): (s: TemperatureState)
    ensures s.chan == chan && s.cb == None && WellFormed(s)
    ensures s.ledger.live == map[] && s.ledger.trace == []
  {
    TemperatureState(chan, None, EmptyLedger)
  }

  /** `new`: the native create call yields the handle; the slot is empty. */
  function Created(chan: Handle): (s: TemperatureState)
    ensures s.chan == chan && s.cb == None && WellFormed(s) && Leaked(s) == {}
    ensures s.ledger.trace == [Create(chan)] && NoDangling(s.ledger)
  {
    View(chan).(ledger := EmptyLedger.(trace := [Create(chan)]))
  }

  /** `drop_callback`: take the slot and free exactly the context it held. */
  function CallbackDropped(s: TemperatureState): (t: TemperatureState)
    requires WellFormed(s)
    ensures t.cb == None && t.chan == s.chan && WellFormed(t)
    ensures t.ledger.live == s.ledger.live - Held(s)
    ensures t.ledger.trace == s.ledger.trace + ReleaseOf(s.cb)
    ensures t.ledger.registered == s.ledger.registered
    ensures s.cb.None? ==> t == s
    ensures Leaked(t) == Leaked(s)
  {
    s.(cb := None, ledger := ReleaseSlot(s.ledger, s.cb))
  }

  /** `set_on_temperature_change_handler`: allocate, store the context, then
      register it. The slot holds the new context whatever the status, and a
      context held before is overwritten without being freed. */
  function HandlerSet(s: TemperatureState, ctx: CtxId, f: ClosureId, rc: int): (t: TemperatureState)
    requires WellFormed(s) && ctx !in s.ledger.live
    ensures t.cb == Some(ctx) && t.chan == s.chan && WellFormed(t)
    ensures t.ledger.live == s.ledger.live[ctx := f]
    ensures t.ledger.trace == s.ledger.trace
      + [Alloc(ctx, f), SetHandler(s.chan, TemperatureChange, Some(TemperatureChange), Addr(ctx), rc)]
    ensures t.ledger.registered ==
      if rc == EPHIDGET_OK then s.ledger.registered[TemperatureChange := ctx] else s.ledger.registered
    ensures Leaked(t) == Leaked(s) + Held(s)
    ensures NoDangling(s.ledger) ==> NoDangling(t.ledger)
  {
    var withBox := Step(s.ledger, Alloc(ctx, f));
    var stored := s.(cb := Some(ctx), ledger := withBox);
    stored.(ledger := Step(withBox, SetHandler(s.chan, TemperatureChange, Some(TemperatureChange), Addr(ctx), rc)))
  }

  /** `remove_on_temperature_change_handler`: unregister with no function and
      a null context, then drop the callback whatever the status. */
  function HandlerRemoved(s: TemperatureState, rc: int): (t: TemperatureState)
    requires WellFormed(s)
    ensures t.cb == None && t.chan == s.chan && WellFormed(t)
    ensures t.ledger.live == s.ledger.live - Held(s)
    ensures t.ledger.trace == s.ledger.trace + [SetHandler(s.chan, TemperatureChange, None, Null, rc)] + ReleaseOf(s.cb)
    ensures rc == EPHIDGET_OK ==> t.ledger.registered == s.ledger.registered - {TemperatureChange}
    ensures rc != EPHIDGET_OK ==> t.ledger.registered == s.ledger.registered
    ensures Leaked(t) == Leaked(s)
  {
    var unregistered := s.(ledger := Step(s.ledger, SetHandler(s.chan, TemperatureChange, None, Null, rc)));
    CallbackDropped(unregistered)
  }

  /** `Drop::drop`: delete the handle, then drop the callback; no close. */
  function TornDown(s: TemperatureState, deleteRc: int): (t: TemperatureState)
    requires WellFormed(s)
    ensures t.cb == None && t.chan == s.chan && WellFormed(t)
    ensures t.ledger.live == s.ledger.live - Held(s)
    ensures t.ledger.trace == s.ledger.trace + [Delete(s.chan, deleteRc)] + ReleaseOf(s.cb)
    ensures forall i :: |s.ledger.trace| <= i < |t.ledger.trace| ==> !t.ledger.trace[i].Close?
    ensures t.ledger.registered == if deleteRc == EPHIDGET_OK then map[] else s.ledger.registered
    ensures deleteRc == EPHIDGET_OK ==> NoDangling(t.ledger)
    ensures Leaked(t) == Leaked(s)
  {
    var deleted := s.(ledger := Step(s.ledger, Delete(s.chan, deleteRc)));
    CallbackDropped(deleted)
  }

  /** Dropping the callback a second time does nothing. */
  lemma CallbackDroppedIdempotent(s: TemperatureState)
    requires WellFormed(s)
    ensures CallbackDropped(CallbackDropped(s)) == CallbackDropped(s)
  {
  }

  /** Register, then remove twice: the context is released exactly once and
      is no longer live, whatever the native statuses. */
  lemma RemoveTwiceReleasesOnce(s: TemperatureState, ctx: CtxId, f: ClosureId, rc0: int, rc1: int, rc2: int)
    requires WellFormed(s) && ctx !in s.ledger.live
    ensures var t := HandlerRemoved(HandlerRemoved(HandlerSet(s, ctx, f, rc0), rc1), rc2);
      ctx !in t.ledger.live && Count(t.ledger.trace[|s.ledger.trace|..], Release(ctx)) == 1
  {
    var set1 := HandlerSet(s, ctx, f, rc0);
    var rem1 := HandlerRemoved(set1, rc1);
    var rem2 := HandlerRemoved(rem1, rc2);
    var a := [Alloc(ctx, f), SetHandler(s.chan, TemperatureChange, Some(TemperatureChange), Addr(ctx), rc0)];
    var b := [SetHandler(s.chan, TemperatureChange, None, Null, rc1)] + [Release(ctx)];
    var c := [SetHandler(s.chan, TemperatureChange, None, Null, rc2)];
    assert rem2.ledger.trace[|s.ledger.trace|..] == a + b + c;
    CountAppend(a + b, c, Release(ctx));
    CountAppend(a, b, Release(ctx));
    assert Count(a, Release(ctx)) == 0 by {
      assert a[1..][1..] == [];
    }
    assert Count(b, Release(ctx)) == 1 by {
      assert b[1..][1..] == [];
    }
    assert Count(c, Release(ctx)) == 0 by {
      assert c[1..] == [];
    }
  }

  /** Register, remove, register again: starting from an empty slot, exactly
      one context of this slot is live after each step. */
  lemma RegisterRemoveRegister(s: TemperatureState, c1: CtxId, f1: ClosureId, c2: CtxId, f2: ClosureId,
                               rc0: int, rc1: int, rc2: int)
    requires WellFormed(s) && s.cb == None && c1 !in s.ledger.live && c2 !in s.ledger.live
    ensures var t1 := HandlerSet(s, c1, f1, rc0);
      t1.ledger.live.Keys - s.ledger.live.Keys == {c1} &&
      var t2 := HandlerRemoved(t1, rc1);
      t2.ledger.live == s.ledger.live &&
      var t3 := HandlerSet(t2, c2, f2, rc2);
      t3.ledger.live.Keys - s.ledger.live.Keys == {c2}
  {
  }

  /** Registering over a stored context leaks the stored one. */
  lemma ReRegisterLeaks(s: TemperatureState, c1: CtxId, f1: ClosureId, rc1: int, c2: CtxId, f2: ClosureId, rc2: int)
    requires WellFormed(s) && c1 !in s.ledger.live && c2 !in s.ledger.live && c1 != c2
    ensures c1 in Leaked(HandlerSet(HandlerSet(s, c1, f1, rc1), c2, f2, rc2))
  {
  }

  /** After a successful registration, removal leaves no dangling context if
      and only if the native unregistration succeeded: a failed unregistration
      frees a context the native library still holds. */
  lemma RemoveSafeIffUnregistered(s: TemperatureState, ctx: CtxId, f: ClosureId, rc: int)
    requires WellFormed(s) && ctx !in s.ledger.live && NoDangling(s.ledger)
    ensures NoDangling(HandlerRemoved(HandlerSet(s, ctx, f, EPHIDGET_OK), rc).ledger) <==> rc == EPHIDGET_OK
  {
    var t := HandlerRemoved(HandlerSet(s, ctx, f, EPHIDGET_OK), rc);
    if rc != EPHIDGET_OK {
      assert t.ledger.registered[TemperatureChange] == ctx;
      assert ctx !in t.ledger.live;
    } else {
      forall k | k in t.ledger.registered
        ensures t.ledger.registered[k] in t.ledger.live
      {
        assert k in s.ledger.registered;
      }
    }
  }

  /** After a successful registration, teardown leaves no dangling context if
      and only if the native delete succeeded. */
  lemma TornDownSafeIffDeleted(s: TemperatureState, ctx: CtxId, f: ClosureId, deleteRc: int)
    requires WellFormed(s) && ctx !in s.ledger.live
    ensures NoDangling(TornDown(HandlerSet(s, ctx, f, EPHIDGET_OK), deleteRc).ledger) <==> deleteRc == EPHIDGET_OK
  {
    var t := TornDown(HandlerSet(s, ctx, f, EPHIDGET_OK), deleteRc);
    if deleteRc != EPHIDGET_OK {
      assert t.ledger.registered[TemperatureChange] == ctx;
    }
  }

  /** What `on_temperature_change` does when the native library calls it with
      `ctx`, while `live` maps each allocated context to its closure. */
  function Delivered(chan: Handle, ctx: Ptr, temperature: F64, live: map<CtxId, ClosureId>): Option<TemperatureCall>
    requires ctx.Addr? ==> ctx.id in live
  {
    if ctx.Null? then None else Some(TemperatureCall(live[ctx.id], View(chan), temperature))
  }

  /** After a successful registration of `f`, the native library holds a
      live context, and an event delivered with it calls exactly `f`, with a
      view over the sensor's handle and the temperature unchanged. */
  lemma RegisteredDelivers(s: TemperatureState, ctx: CtxId, f: ClosureId, temperature: F64)
    requires WellFormed(s) && ctx !in s.ledger.live
    ensures var t := HandlerSet(s, ctx, f, EPHIDGET_OK);
      TemperatureChange in t.ledger.registered && t.ledger.registered[TemperatureChange] in t.ledger.live &&
      Delivered(t.chan, Addr(t.ledger.registered[TemperatureChange]), temperature, t.ledger.live)
        == Some(TemperatureCall(f, View(s.chan), temperature))
  {
  }

  class TemperatureSensor {
    var chan: Handle
    var cb: Option<CtxId>
    ghost var ledger: Ledger

    ghost function Model(): TemperatureState
      reads this
    {
      TemperatureState(chan, cb, ledger)
    }

    ghost predicate Valid()
      reads this
    {
      WellFormed(Model())
    }

    /** `new`: the handle is whatever the native create call writes back. */
    constructor New()
      ensures Valid() && Model() == Created(chan)
    {
      var h: Handle := *;
      chan := h;
      cb := None;
      ledger := EmptyLedger.(trace := [Create(h)]);
    }

    /** `PhidgetTemperatureSensor_setOnTemperatureChangeHandler`. */
    method NativeSetHandler(fn: Option<EventKind>, ctx: Ptr) returns (rc: int)
      modifies this`ledger
      ensures ledger == Step(old(ledger), SetHandler(chan, TemperatureChange, fn, ctx, rc))
    {
      rc := *;
      ledger := Step(ledger, SetHandler(chan, TemperatureChange, fn, ctx, rc));
    }

    /** `PhidgetTemperatureSensor_delete`. */
    method NativeDelete() returns (rc: int)
      modifies this`ledger
      ensures ledger == Step(old(ledger), Delete(chan, rc))
    {
      rc := *;
      ledger := Step(ledger, Delete(chan, rc));
    }

    method DropCallback()
      requires Valid()
      modifies this
      ensures Valid() && Model() == CallbackDropped(old(Model()))
    {
      var taken := cb;
      cb := None;
      ledger := ReleaseSlot(ledger, taken);
    }

    method SetOnTemperatureChangeHandler(f: ClosureId, ctx: CtxId) returns (r: Result<()>)
      requires Valid() && ctx !in ledger.live
      modifies this
      ensures Valid() && Model() == HandlerSet(old(Model()), ctx, f, StatusOf(r))
      ensures r == CheckRet(StatusOf(r))
    {
      ledger := Step(ledger, Alloc(ctx, f));
      cb := Some(ctx);
      var rc := NativeSetHandler(Some(TemperatureChange), Addr(ctx));
      r := CheckRet(rc);
    }

    method RemoveOnTemperatureChangeHandler() returns (r: Result<()>)
      requires Valid()
      modifies this
      ensures Valid() && Model() == HandlerRemoved(old(Model()), StatusOf(r))
      ensures r == CheckRet(StatusOf(r))
    {
      var rc := NativeSetHandler(None, Null);
      var ret := CheckRet(rc);
      DropCallback();
      r := ret;
    }

    /** `Drop::drop`; the native delete status is reported as a ghost result. */
    method Drop() returns (ghost deleteRc: int)
      requires Valid()
      modifies this
      ensures Valid() && Model() == TornDown(old(Model()), deleteRc)
    {
      var rc := NativeDelete();
      DropCallback();
      deleteRc := rc;
    }

    /** `on_temperature_change`: a null context does nothing; otherwise the
        closure boxed at the context is called with a view `{ chan, cb: None }`
        and the temperature, and the view is forgotten, not dropped. */
    static method OnTemperatureChange(chan: Handle, ctx: Ptr, temperature: F64, live: map<CtxId, ClosureId>)
      returns (call: Option<TemperatureCall>)
      requires ctx.Addr? ==> ctx.id in live
      ensures call == Delivered(chan, ctx, temperature, live)
      ensures ctx.Null? <==> call.None?
      ensures ctx.Addr? ==> call == Some(TemperatureCall(live[ctx.id], View(chan), temperature))
      ensures call.Some? ==> call.value.sensor.cb == None && call.value.sensor.ledger.trace == []
    {
      call := None;
      if ctx.Addr? {
        var closure := live[ctx.id];
        var sensor := View(chan);
        call := Some(TemperatureCall(closure, sensor, temperature));
      }
    }
  }
}
