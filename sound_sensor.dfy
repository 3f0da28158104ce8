/** The sound sensor channel: three callback slots (SPL change, attach,
    detach), their trampolines, and the teardown that closes, deletes and then
    releases every slot. */
module Sound {
  import opened Bridge

  /** The number of octave bands an SPL-change event delivers. */
  const OCTAVE_BANDS: nat := 10

  /** The fields of a SoundSensor, with the ledger of what it has done. */
  datatype SoundState = SoundState(
    chan: Handle,
    cb: Option<CtxId>,
    attachCb: Option<CtxId>,
    detachCb: Option<CtxId>,
    ledger: Ledger)

  /** Every stored context is a live allocation, and no two slots share one. */
  predicate WellFormed(s: SoundState)
  {
    (s.cb.Some? ==> s.cb.value in s.ledger.live) &&
    (s.attachCb.Some? ==> s.attachCb.value in s.ledger.live) &&
    (s.detachCb.Some? ==> s.detachCb.value in s.ledger.live) &&
    (s.cb.Some? && s.attachCb.Some? ==> s.cb.value != s.attachCb.value) &&
    (s.cb.Some? && s.detachCb.Some? ==> s.cb.value != s.detachCb.value) &&
    (s.attachCb.Some? && s.detachCb.Some? ==> s.attachCb.value != s.detachCb.value)
  }

  function SlotSet(slot: Option<CtxId>): set<CtxId>
  {
    if slot.Some? then {slot.value} else {}
  }

  /** The contexts held in the three slots. */
  function Held(s: SoundState): set<CtxId>
  {
    SlotSet(s.cb) + SlotSet(s.attachCb) + SlotSet(s.detachCb)
  }

  /** Live contexts that no slot refers to any more: nothing will free them. */
  function Leaked(s: SoundState): set<CtxId>
  {
    s.ledger.live.Keys - Held(s)
  }

  /** `From<PhidgetSoundSensorHandle>`: a sensor over a handle with all
      three slots empty, owning nothing and having done nothing. */
  function FromHandle(chan: Handle): (s: SoundState)
    ensures s.chan == chan && s.cb == None && s.attachCb == None && s.detachCb == None
    ensures WellFormed(s) && s.ledger.live == map[] && s.ledger.trace == []
  {
    SoundState(chan, None, None, None, EmptyLedger)
  }

  /** `new`: the native create call yields the handle, then `from`. */
  function Created(chan: Handle): (s: SoundState)
    ensures s.chan == chan && s.cb == None && s.attachCb == None && s.detachCb == None
    ensures WellFormed(s) && Leaked(s) == {} && s.ledger.trace == [Create(chan)]
  {
    FromHandle(chan).(ledger := EmptyLedger.(trace := [Create(chan)]))
  }

  /** `set_on_spl_change_handler`: allocate, store in `cb`, then register.
      The slot holds the new context whatever the status; a context held
      before is overwritten without being freed. */
  function SplChangeSet(s: SoundState, ctx: CtxId, f: ClosureId, rc: int): (t: SoundState)
    requires WellFormed(s) && ctx !in s.ledger.live
    ensures WellFormed(t) && t.cb == Some(ctx)
    ensures t.chan == s.chan && t.attachCb == s.attachCb && t.detachCb == s.detachCb
    ensures t.ledger.live == s.ledger.live[ctx := f]
    ensures t.ledger.trace == s.ledger.trace
      + [Alloc(ctx, f), SetHandler(s.chan, SplChange, Some(SplChange), Addr(ctx), rc)]
    ensures t.ledger.registered ==
      if rc == EPHIDGET_OK then s.ledger.registered[SplChange := ctx] else s.ledger.registered
    ensures Leaked(t) == Leaked(s) + SlotSet(s.cb)
    ensures NoDangling(s.ledger) ==> NoDangling(t.ledger)
  {
    var withBox := Step(s.ledger, Alloc(ctx, f));
    var stored := s.(cb := Some(ctx), ledger := withBox);
    stored.(ledger := Step(withBox, SetHandler(s.chan, SplChange, Some(SplChange), Addr(ctx), rc)))
  }

  /** `set_on_attach_handler`: allocate, register, and store in `attach_cb`
      only on success. On failure the slot is unchanged and the fresh
      context is leaked; on success a context held before is leaked. */
  function AttachSet(s: SoundState, ctx: CtxId, f: ClosureId, rc: int): (t: SoundState)
    requires WellFormed(s) && ctx !in s.ledger.live
    ensures WellFormed(t)
    ensures t.attachCb == if rc == EPHIDGET_OK then Some(ctx) else s.attachCb
    ensures t.chan == s.chan && t.cb == s.cb && t.detachCb == s.detachCb
    ensures t.ledger.live == s.ledger.live[ctx := f]
    ensures t.ledger.trace == s.ledger.trace
      + [Alloc(ctx, f), SetHandler(s.chan, Attach, Some(Attach), Addr(ctx), rc)]
    ensures t.ledger.registered ==
      if rc == EPHIDGET_OK then s.ledger.registered[Attach := ctx] else s.ledger.registered
    ensures Leaked(t) == Leaked(s) + if rc == EPHIDGET_OK then SlotSet(s.attachCb) else {ctx}
    ensures NoDangling(s.ledger) ==> NoDangling(t.ledger)
  {
    var withBox := Step(s.ledger, Alloc(ctx, f));
    var registered := Step(withBox, SetHandler(s.chan, Attach, Some(Attach), Addr(ctx), rc));
    if rc == EPHIDGET_OK then s.(attachCb := Some(ctx), ledger := registered) else s.(ledger := registered)
  }

  /** `set_on_detach_handler`: as for attach, on the `detach_cb` slot. */
  function DetachSet(s: SoundState, ctx: CtxId, f: ClosureId, rc: int): (t: SoundState)
    requires WellFormed(s) && ctx !in s.ledger.live
    ensures WellFormed(t)
    ensures t.detachCb == if rc == EPHIDGET_OK then Some(ctx) else s.detachCb
    ensures t.chan == s.chan && t.cb == s.cb && t.attachCb == s.attachCb
    ensures t.ledger.live == s.ledger.live[ctx := f]
    ensures t.ledger.trace == s.ledger.trace
      + [Alloc(ctx, f), SetHandler(s.chan, Detach, Some(Detach), Addr(ctx), rc)]
    ensures t.ledger.registered ==
      if rc == EPHIDGET_OK then s.ledger.registered[Detach := ctx] else s.ledger.registered
    ensures Leaked(t) == Leaked(s) + if rc == EPHIDGET_OK then SlotSet(s.detachCb) else {ctx}
    ensures NoDangling(s.ledger) ==> NoDangling(t.ledger)
  {
    var withBox := Step(s.ledger, Alloc(ctx, f));
    var registered := Step(withBox, SetHandler(s.chan, Detach, Some(Detach), Addr(ctx), rc));
    if rc == EPHIDGET_OK then s.(detachCb := Some(ctx), ledger := registered) else s.(ledger := registered)
  }

  /** The calls drop makes before delete: the open query, and close only when
      the query answered `Ok(true)`. */
  function Closing(h: Handle, open: Result<bool>, closeRc: int): seq<Event>
  {
    [IsOpen(h, open)] + if open == Ok(true) then [Close(h, closeRc)] else []
  }

  /** The releases drop makes after delete: `cb`, `attach_cb`, `detach_cb`. */
  function Releases(s: SoundState): seq<Event>
  {
    ReleaseOf(s.cb) + ReleaseOf(s.attachCb) + ReleaseOf(s.detachCb)
  }

  /** The open query, the close it may lead to, and the delete call. */
  function Deleted(l: Ledger, h: Handle, open: Result<bool>, closeRc: int, deleteRc: int): (m: Ledger)
    ensures m.live == l.live
    ensures m.trace == l.trace + Closing(h, open, closeRc) + [Delete(h, deleteRc)]
    ensures m.registered == if deleteRc == EPHIDGET_OK then map[] else l.registered
  {
    var queried := Step(l, IsOpen(h, open));
    var closed := if open == Ok(true) then Step(queried, Close(h, closeRc)) else queried;
    Step(closed, Delete(h, deleteRc))
  }

  /** Taking and releasing `cb`, `attach_cb` and `detach_cb` in turn. */
  function SlotsReleased(l: Ledger, s: SoundState): (m: Ledger)
    requires WellFormed(s.(ledger := l))
    ensures m.registered == l.registered
    ensures m.trace == l.trace + Releases(s)
    ensures m.live == l.live - Held(s)
  {
    var l1 := ReleaseSlot(l, s.cb);
    var l2 := ReleaseSlot(l1, s.attachCb);
    ReleaseSlot(l2, s.detachCb)
  }

  /** `Drop::drop`: close if open (ignoring its status), delete the handle,
      then take and release `cb`, `attach_cb` and `detach_cb` in that order. */
  function TornDown(s: SoundState, open: Result<bool>, closeRc: int, deleteRc: int): (t: SoundState)
    requires WellFormed(s)
    ensures WellFormed(t) && t.chan == s.chan
    ensures t.cb == None && t.attachCb == None && t.detachCb == None
    ensures t.ledger.live == s.ledger.live - Held(s)
    ensures t.ledger.trace == s.ledger.trace + Closing(s.chan, open, closeRc) + [Delete(s.chan, deleteRc)] + Releases(s)
    ensures t.ledger.registered == if deleteRc == EPHIDGET_OK then map[] else s.ledger.registered
    ensures Leaked(t) == Leaked(s)
    ensures deleteRc == EPHIDGET_OK ==> NoDangling(t.ledger)
  {
    var deleted := Deleted(s.ledger, s.chan, open, closeRc, deleteRc);
    SoundState(s.chan, None, None, None, SlotsReleased(deleted, s))
  }

  /** The slice-to-array conversion of the octave values: it succeeds exactly
      for a slice of ten values and keeps them unchanged. */
  function TryIntoOctaves(slice: seq<F64>): (r: Option<seq<F64>>)
    ensures r.Some? <==> |slice| == OCTAVE_BANDS
    ensures r.Some? ==> r.value == slice
  {
    if |slice| == OCTAVE_BANDS then Some(slice) else None
  }

  /** The order of the teardown calls, on the appended events alone: the open
      query (and close only after `Ok(true)`) come first, then the delete
      call, and every release comes after it. */
  lemma TeardownEventsOrder(s: SoundState, open: Result<bool>, closeRc: int, deleteRc: int)
    ensures var d := Closing(s.chan, open, closeRc) + [Delete(s.chan, deleteRc)] + Releases(s);
      var k := |Closing(s.chan, open, closeRc)|;
      k < |d| && d[k] == Delete(s.chan, deleteRc) &&
      (forall i :: 0 <= i < k ==> !d[i].Release? && !d[i].Delete?) &&
      (forall i :: k < i < |d| ==> d[i].Release?) &&
      ((exists i :: 0 <= i < |d| && d[i].Close?) <==> open == Ok(true))
  {
    var c := Closing(s.chan, open, closeRc);
    var d := c + [Delete(s.chan, deleteRc)] + Releases(s);
    var k := |c|;
    forall i | k < i < |d|
      ensures d[i].Release?
    {
      assert d[i] == Releases(s)[i - k - 1];
    }
    if open == Ok(true) {
      assert d[1].Close?;
    } else {
      forall i | 0 <= i < |d|
        ensures !d[i].Close?
      {
        if i > 0 {
          assert d[i] == (d[1..])[i - 1];
        }
      }
    }
  }

  /** The teardown trace: the open query (and close only after `Ok(true)`)
      come first, then the delete call, and every release comes after it. */
  lemma TornDownOrder(s: SoundState, open: Result<bool>, closeRc: int, deleteRc: int)
    requires WellFormed(s)
    ensures var d := TornDown(s, open, closeRc, deleteRc).ledger.trace[|s.ledger.trace|..];
      var k := |Closing(s.chan, open, closeRc)|;
      k < |d| && d[k] == Delete(s.chan, deleteRc) &&
      (forall i :: 0 <= i < k ==> !d[i].Release? && !d[i].Delete?) &&
      (forall i :: k < i < |d| ==> d[i].Release?) &&
      ((exists i :: 0 <= i < |d| && d[i].Close?) <==> open == Ok(true))
  {
    assert TornDown(s, open, closeRc, deleteRc).ledger.trace[|s.ledger.trace|..]
      == Closing(s.chan, open, closeRc) + [Delete(s.chan, deleteRc)] + Releases(s);
    TeardownEventsOrder(s, open, closeRc, deleteRc);
  }

  /** The releases name each stored context once: the slots are distinct. */
  lemma CountReleases(s: SoundState, c: CtxId)
    requires WellFormed(s)
    ensures Count(Releases(s), Release(c)) == if c in Held(s) then 1 else 0
  {
    CountAppend(ReleaseOf(s.cb) + ReleaseOf(s.attachCb), ReleaseOf(s.detachCb), Release(c));
    CountAppend(ReleaseOf(s.cb), ReleaseOf(s.attachCb), Release(c));
    CountReleaseOf(s.cb, Release(c));
    CountReleaseOf(s.attachCb, Release(c));
    CountReleaseOf(s.detachCb, Release(c));
  }

  /** Nothing before the releases is a release. */
  lemma CountBeforeReleases(h: Handle, open: Result<bool>, closeRc: int, deleteRc: int, c: CtxId)
    ensures Count(Closing(h, open, closeRc) + [Delete(h, deleteRc)], Release(c)) == 0
  {
    var q := [IsOpen(h, open)];
    var r := (if open == Ok(true) then [Close(h, closeRc)] else []) + [Delete(h, deleteRc)];
    assert Closing(h, open, closeRc) + [Delete(h, deleteRc)] == q + r;
    CountAppend(q, r, Release(c));
    assert q[1..] == [];
    if open == Ok(true) {
      assert r[1..][1..] == [];
    } else {
      assert r[1..] == [];
    }
  }

  /** Teardown releases every stored context exactly once and nothing else. */
  lemma TornDownReleasesOnce(s: SoundState, open: Result<bool>, closeRc: int, deleteRc: int, c: CtxId)
    requires WellFormed(s)
    ensures var d := TornDown(s, open, closeRc, deleteRc).ledger.trace[|s.ledger.trace|..];
      Count(d, Release(c)) == if c in Held(s) then 1 else 0
  {
    var t := TornDown(s, open, closeRc, deleteRc);
    var pre := Closing(s.chan, open, closeRc) + [Delete(s.chan, deleteRc)];
    assert t.ledger.trace[|s.ledger.trace|..] == pre + Releases(s);
    CountAppend(pre, Releases(s), Release(c));
    CountBeforeReleases(s.chan, open, closeRc, deleteRc, c);
    CountReleases(s, c);
  }

  /** After a successful attach registration, teardown leaves no dangling
      context if and only if the native delete succeeded. */
  lemma TornDownSafeIffDeleted(s: SoundState, ctx: CtxId, f: ClosureId, open: Result<bool>, closeRc: int, deleteRc: int)
    requires WellFormed(s) && ctx !in s.ledger.live
    ensures NoDangling(TornDown(AttachSet(s, ctx, f, EPHIDGET_OK), open, closeRc, deleteRc).ledger)
      <==> deleteRc == EPHIDGET_OK
  {
    var t := TornDown(AttachSet(s, ctx, f, EPHIDGET_OK), open, closeRc, deleteRc);
    if deleteRc != EPHIDGET_OK {
      assert t.ledger.registered[Attach] == ctx;
    }
  }

  /** Why the trampolines forget their view: the view a trampoline builds
      shares the owning sensor's handle, so dropping it would run teardown
      and delete the handle that the owner still uses. */
  lemma DroppingViewDeletes(s: SoundState, open: Result<bool>, closeRc: int, deleteRc: int)
    ensures var view := FromHandle(s.chan);
      view.chan == s.chan && view.ledger.live == map[] &&
      Delete(s.chan, deleteRc) in TornDown(view, open, closeRc, deleteRc).ledger.trace
  {
  }

  /** A failed attach registration leaks the fresh context and, registered
      again successfully, still leaves it unreachable. */
  lemma AttachFailureLeaks(s: SoundState, c1: CtxId, f1: ClosureId, rc1: int, c2: CtxId, f2: ClosureId)
    requires WellFormed(s) && c1 !in s.ledger.live && c2 !in s.ledger.live && c1 != c2
    requires rc1 != EPHIDGET_OK
    ensures var t := AttachSet(AttachSet(s, c1, f1, rc1), c2, f2, EPHIDGET_OK);
      c1 in Leaked(t) && t.attachCb == Some(c2)
  {
  }

  /** The invocation of a user closure by a trampoline. */
  datatype SoundCall =
    | AttachCall(closure: ClosureId, sensor: SoundState)
    | DetachCall(closure: ClosureId, sensor: SoundState)
    | SplChangeCall(closure: ClosureId, sensor: SoundState, db: F64, dbA: F64, dbC: F64, octaves: seq<F64>)

  /** What `on_attach` does when the native library calls it with `ctx`,
      while `live` maps each allocated context to its closure. */
  function AttachDelivered(phid: Handle, ctx: Ptr, live: map<CtxId, ClosureId>): Option<SoundCall>
    requires ctx.Addr? ==> ctx.id in live
  {
    if ctx.Null? then None else Some(AttachCall(live[ctx.id], FromHandle(phid)))
  }

  /** What `on_detach` does, as for `on_attach`. */
  function DetachDelivered(phid: Handle, ctx: Ptr, live: map<CtxId, ClosureId>): Option<SoundCall>
    requires ctx.Addr? ==> ctx.id in live
  {
    if ctx.Null? then None else Some(DetachCall(live[ctx.id], FromHandle(phid)))
  }

  /** What `on_spl_change` does: the closure gets the first ten octave values. */
  function SplChangeDelivered(chan: Handle, ctx: Ptr, db: F64, dbA: F64, dbC: F64, octaves: seq<F64>,
                              live: map<CtxId, ClosureId>): Option<SoundCall>
    requires ctx.Addr? ==> ctx.id in live && |octaves| >= OCTAVE_BANDS
  {
    if ctx.Null? then None
    else Some(SplChangeCall(live[ctx.id], FromHandle(chan), db, dbA, dbC, octaves[..OCTAVE_BANDS]))
  }

  /** After a successful SPL-change registration of `f`, the native library
      holds a live context, and an event delivered with it calls exactly `f`
      with the dB values unchanged and the first ten octave values. */
  lemma SplChangeRegisteredDelivers(s: SoundState, ctx: CtxId, f: ClosureId,
                                    db: F64, dbA: F64, dbC: F64, octaves: seq<F64>)
    requires WellFormed(s) && ctx !in s.ledger.live && |octaves| >= OCTAVE_BANDS
    ensures var t := SplChangeSet(s, ctx, f, EPHIDGET_OK);
      SplChange in t.ledger.registered && t.ledger.registered[SplChange] in t.ledger.live &&
      SplChangeDelivered(t.chan, Addr(t.ledger.registered[SplChange]), db, dbA, dbC, octaves, t.ledger.live)
        == Some(SplChangeCall(f, FromHandle(s.chan), db, dbA, dbC, octaves[..OCTAVE_BANDS]))
  {
  }

  /** After a successful attach registration of `f`, an attach event
      delivered with the context the native library holds calls exactly `f`. */
  lemma AttachRegisteredDelivers(s: SoundState, ctx: CtxId, f: ClosureId)
    requires WellFormed(s) && ctx !in s.ledger.live
    ensures var t := AttachSet(s, ctx, f, EPHIDGET_OK);
      Attach in t.ledger.registered && t.ledger.registered[Attach] in t.ledger.live &&
      AttachDelivered(t.chan, Addr(t.ledger.registered[Attach]), t.ledger.live)
        == Some(AttachCall(f, FromHandle(s.chan)))
  {
  }

  /** After a successful detach registration of `f`, a detach event
      delivered with the context the native library holds calls exactly `f`. */
  lemma DetachRegisteredDelivers(s: SoundState, ctx: CtxId, f: ClosureId)
    requires WellFormed(s) && ctx !in s.ledger.live
    ensures var t := DetachSet(s, ctx, f, EPHIDGET_OK);
      Detach in t.ledger.registered && t.ledger.registered[Detach] in t.ledger.live &&
      DetachDelivered(t.chan, Addr(t.ledger.registered[Detach]), t.ledger.live)
        == Some(DetachCall(f, FromHandle(s.chan)))
  {
  }

  class SoundSensor {
    var chan: Handle
    var cb: Option<CtxId>
    var attachCb: Option<CtxId>
    var detachCb: Option<CtxId>
    ghost var ledger: Ledger

    ghost function Model(): SoundState
      reads this
    {
      SoundState(chan, cb, attachCb, detachCb, ledger)
    }

    ghost predicate Valid()
      reads this
    {
      WellFormed(Model())
    }

    constructor From(chan: Handle)
      ensures Valid() && Model() == FromHandle(chan)
    {
      this.chan := chan;
      cb, attachCb, detachCb := None, None, None;
      ledger := EmptyLedger;
    }

    /** `new`: the handle is whatever the native create call writes back. */
    constructor New()
      ensures Valid() && Model() == Created(chan)
    {
      var h: Handle := *;
      chan := h;
      cb, attachCb, detachCb := None, None, None;
      ledger := EmptyLedger.(trace := [Create(h)]);
    }

    /** A native handler registration (PhidgetSoundSensor_setOnSPLChangeHandler,
        Phidget_setOnAttachHandler, Phidget_setOnDetachHandler). */
    method NativeSetHandler(kind: EventKind, fn: Option<EventKind>, ctx: Ptr) returns (rc: int)
      modifies this`ledger
      ensures ledger == Step(old(ledger), SetHandler(chan, kind, fn, ctx, rc))
    {
      rc := *;
      ledger := Step(ledger, SetHandler(chan, kind, fn, ctx, rc));
    }

    /** `is_open`. */
    method NativeIsOpen() returns (open: Result<bool>)
      modifies this`ledger
      ensures ledger == Step(old(ledger), IsOpen(chan, open))
    {
      open := *;
      ledger := Step(ledger, IsOpen(chan, open));
    }

    /** `close`. */
    method NativeClose() returns (rc: int)
      modifies this`ledger
      ensures ledger == Step(old(ledger), Close(chan, rc))
    {
      rc := *;
      ledger := Step(ledger, Close(chan, rc));
    }

    /** `PhidgetSoundSensor_delete`. */
    method NativeDelete() returns (rc: int)
      modifies this`ledger
      ensures ledger == Step(old(ledger), Delete(chan, rc))
    {
      rc := *;
      ledger := Step(ledger, Delete(chan, rc));
    }

    method SetOnSplChangeHandler(f: ClosureId, ctx: CtxId) returns (r: Result<()>)
      requires Valid() && ctx !in ledger.live
      modifies this
      ensures Valid() && Model() == SplChangeSet(old(Model()), ctx, f, StatusOf(r))
      ensures r == CheckRet(StatusOf(r))
    {
      ledger := Step(ledger, Alloc(ctx, f));
      cb := Some(ctx);
      var rc := NativeSetHandler(SplChange, Some(SplChange), Addr(ctx));
      r := CheckRet(rc);
    }

    method SetOnAttachHandler(f: ClosureId, ctx: CtxId) returns (r: Result<()>)
      requires Valid() && ctx !in ledger.live
      modifies this
      ensures Valid() && Model() == AttachSet(old(Model()), ctx, f, StatusOf(r))
      ensures r == CheckRet(StatusOf(r))
    {
      ledger := Step(ledger, Alloc(ctx, f));
      var rc := NativeSetHandler(Attach, Some(Attach), Addr(ctx));
      r := CheckRet(rc);
      if r.Err? {
        return;
      }
      attachCb := Some(ctx);
    }

    method SetOnDetachHandler(f: ClosureId, ctx: CtxId) returns (r: Result<()>)
      requires Valid() && ctx !in ledger.live
      modifies this
      ensures Valid() && Model() == DetachSet(old(Model()), ctx, f, StatusOf(r))
      ensures r == CheckRet(StatusOf(r))
    {
      ledger := Step(ledger, Alloc(ctx, f));
      var rc := NativeSetHandler(Detach, Some(Detach), Addr(ctx));
      r := CheckRet(rc);
      if r.Err? {
        return;
      }
      detachCb := Some(ctx);
    }

    /** `Drop::drop`; the native answers are reported as ghost results. */
    method Drop() returns (ghost open: Result<bool>, ghost closeRc: int, ghost deleteRc: int)
      requires Valid()
      modifies this
      ensures Valid() && Model() == TornDown(old(Model()), open, closeRc, deleteRc)
    {
      var isOpen := NativeIsOpen();
      open, closeRc := isOpen, EPHIDGET_OK;
      if isOpen == Ok(true) {
        var rc := NativeClose();
        closeRc := rc;
      }
      var rc := NativeDelete();
      deleteRc := rc;
      assert ledger == Deleted(old(ledger), chan, open, closeRc, deleteRc);
      var taken := cb;
      cb := None;
      ledger := ReleaseSlot(ledger, taken);
      taken := attachCb;
      attachCb := None;
      ledger := ReleaseSlot(ledger, taken);
      taken := detachCb;
      detachCb := None;
      ledger := ReleaseSlot(ledger, taken);
    }

    /** `on_attach`: a null context does nothing; otherwise the closure boxed
        at the context is called with a view built by `from`, and the view is
        forgotten, not dropped. */
    static method OnAttach(phid: Handle, ctx: Ptr, live: map<CtxId, ClosureId>) returns (call: Option<SoundCall>)
      requires ctx.Addr? ==> ctx.id in live
      ensures call == AttachDelivered(phid, ctx, live)
      ensures ctx.Null? <==> call.None?
      ensures ctx.Addr? ==> call == Some(AttachCall(live[ctx.id], FromHandle(phid)))
    {
      call := None;
      if ctx.Addr? {
        var closure := live[ctx.id];
        var sensor := FromHandle(phid);
        call := Some(AttachCall(closure, sensor));
      }
    }

    /** `on_detach`: as `on_attach`, for the detach closure. */
    static method OnDetach(phid: Handle, ctx: Ptr, live: map<CtxId, ClosureId>) returns (call: Option<SoundCall>)
      requires ctx.Addr? ==> ctx.id in live
      ensures call == DetachDelivered(phid, ctx, live)
      ensures ctx.Null? <==> call.None?
      ensures ctx.Addr? ==> call == Some(DetachCall(live[ctx.id], FromHandle(phid)))
    {
      call := None;
      if ctx.Addr? {
        var closure := live[ctx.id];
        var sensor := FromHandle(phid);
        call := Some(DetachCall(closure, sensor));
      }
    }

    /** `on_spl_change`: a null context does nothing and reads no octaves.
        Otherwise ten values are read from the octave buffer, converted to a
        ten-element array, and passed with the dB values to the closure. */
    static method OnSplChange(chan: Handle, ctx: Ptr, db: F64, dbA: F64, dbC: F64, octaves: seq<F64>,
                              live: map<CtxId, ClosureId>) returns (call: Option<SoundCall>)
      requires ctx.Addr? ==> ctx.id in live && |octaves| >= OCTAVE_BANDS
      ensures call == SplChangeDelivered(chan, ctx, db, dbA, dbC, octaves, live)
      ensures ctx.Null? <==> call.None?
      ensures ctx.Addr? ==>
        call == Some(SplChangeCall(live[ctx.id], FromHandle(chan), db, dbA, dbC, octaves[..OCTAVE_BANDS]))
      ensures call.Some? ==> |call.value.octaves| == OCTAVE_BANDS
    {
      call := None;
      if ctx.Addr? {
        var closure := live[ctx.id];
        var bands := TryIntoOctaves(octaves[..OCTAVE_BANDS]);
        if bands.None? {
          assert false;
        } else {
          var sensor := FromHandle(chan);
          call := Some(SplChangeCall(closure, sensor, db, dbA, dbC, bands.value));
        }
      }
    }
  }
}
