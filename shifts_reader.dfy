/** `ShiftsReader`: the one-slot bridge between the listener thread and the
    asyncio loop. The listener itself and the awaiting of the future are not
    modelled; what is modelled is which futures get a result scheduled, with
    which key, and when the slot changes. */
module Reader {
  import opened Keys

  /** An `asyncio.Future`; only its identity matters here. */
  class Future {
    constructor ()
    {
    }
  }

  /** A callback queued on the loop by `call_soon_threadsafe`:
      `future.set_result(key)`. */
  datatype Callback = SetResult(future: Future, key: Key)

  /** The part of the event loop the reader touches: the queue of callbacks
      scheduled from other threads, in scheduling order. */
  class EventLoop {
    var scheduled: seq<Callback>

    constructor ()
      ensures scheduled == []
    {
      scheduled := [];
    }
  }

  /** What one key press schedules, given the current slot: a single
      `set_result(key)` on the slot's future if there is one and the key is a
      shift key, and nothing otherwise. */
  function ScheduledBy(slot: Future?, key: Key): (cbs: seq<Callback>)
    ensures |cbs| <= 1
    ensures cbs != [] <==> slot != null && IsShift(key)
    ensures forall c :: c in cbs ==> c.future == slot && c.key == key
  {
    if slot != null && IsShift(key) then [SetResult(slot, key)] else []
  }

  /** What a run of presses schedules while the slot stays the same. */
  function ScheduledByAll(slot: Future?, keys: seq<Key>): seq<Callback>
  {
    if keys == [] then []
    else ScheduledByAll(slot, keys[..|keys| - 1]) + ScheduledBy(slot, keys[|keys| - 1])
  }

  /** With no slot nothing is scheduled; with a slot every callback targets
      that same future and carries a shift key, and no non-shift key ever
      schedules anything. Each shift press in the run schedules one callback,
      because the slot is not cleared after the first. */
  lemma {:induction false} ScheduledByAllTargetsSlot(slot: Future?, keys: seq<Key>)
    ensures slot == null ==> ScheduledByAll(slot, keys) == []
    ensures forall c :: c in ScheduledByAll(slot, keys) ==> c.future == slot && IsShift(c.key)
    ensures (forall i :: 0 <= i < |keys| ==> !IsShift(keys[i])) ==> ScheduledByAll(slot, keys) == []
    ensures slot != null && (forall i :: 0 <= i < |keys| ==> IsShift(keys[i])) ==>
              |ScheduledByAll(slot, keys)| == |keys|
  {
    if keys != [] {
      var init := keys[..|keys| - 1];
      ScheduledByAllTargetsSlot(slot, init);
      assert forall i :: 0 <= i < |init| ==> init[i] == keys[i];
    }
  }

  class ShiftsReader {
    /** `_handler_future`: the slot, `None` until the first `get_shift`. */
    var handlerFuture: Future?
    /** `_loop`: the loop callbacks are scheduled on. */
    const loop: EventLoop

    /** `__init__`: no listener yet and an empty slot. */
    constructor (loop: EventLoop)
      ensures this.loop == loop && handlerFuture == null
    {
      this.loop := loop;
      handlerFuture := null;
    }

    /** `_handle_press`: schedules `set_result(key)` on the slot's future when
        there is a slot and the key is a shift key. The slot itself is left as
        it is. */
    method HandlePress(key: Key)
      modifies loop
      ensures loop.scheduled == old(loop.scheduled) + ScheduledBy(handlerFuture, key)
    {
      if handlerFuture != null && (key == Shift || key == ShiftR) {
        loop.scheduled := loop.scheduled + [SetResult(handlerFuture, key)];
      }
    }

    /** The synchronous part of `get_shift`: a fresh future replaces whatever
        the slot held. The future is returned; awaiting its result is not
        modelled. */
    method GetShift() returns (f: Future)
      modifies this
      ensures fresh(f) && handlerFuture == f
    {
      f := new Future();
      handlerFuture := f;
    }
  }

  /** A run of presses delivered to the reader while no `get_shift` runs in
      between: the queue grows by exactly ScheduledByAll of the slot. */
  method HandlePresses(reader: ShiftsReader, keys: seq<Key>)
    modifies reader.loop
    ensures reader.loop.scheduled == old(reader.loop.scheduled) + ScheduledByAll(reader.handlerFuture, keys)
  {
    var i := 0;
    while i < |keys|
      invariant i <= |keys|
      invariant reader.loop.scheduled == old(reader.loop.scheduled) + ScheduledByAll(reader.handlerFuture, keys[..i])
    {
      assert keys[..i + 1][..i] == keys[..i];
      reader.HandlePress(keys[i]);
      i := i + 1;
    }
    assert keys[..i] == keys;
  }

  /** A session of presses on a new reader: before the first `get_shift` a
      shift press schedules nothing; afterwards a non-shift key schedules
      nothing, and two shift presses both schedule a `set_result` on the same
      future, since the slot is only replaced by the next `get_shift`. */
  method DoublePress(loop: EventLoop, other: int) returns (f: Future)
    modifies loop
    ensures loop.scheduled == old(loop.scheduled) + [SetResult(f, Shift), SetResult(f, ShiftR)]
  {
    var reader := new ShiftsReader(loop);
    reader.HandlePress(Shift);
    assert loop.scheduled == old(loop.scheduled);
    f := reader.GetShift();
    reader.HandlePress(Other(other));
    reader.HandlePress(Shift);
    reader.HandlePress(ShiftR);
  }
}
