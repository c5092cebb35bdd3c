/** `useTimeout`: one pending timer slot, cleared before every new schedule
    and on unmount. */
module Timeout {
  import opened Common

  /** A scheduled callback, named by the caller, with its delay. */
  datatype Timer = Timer(callback: nat, ms: nat)

  /** A callback that ran, and whether the slot was already empty when it
      started. */
  datatype Run = Run(callback: nat, slotEmpty: bool)

  class Hook {
    /** `ref.current` */
    var pending: Option<Timer>
    /** The callbacks that have run, in order. */
    var ran: seq<Run>

    constructor()
      ensures pending == None && ran == []
    {
      pending := None;
      ran := [];
    }

    /** `clear`: cancels the pending timer, if any; nothing runs. */
    method Clear()
      modifies this
      ensures pending == None && ran == old(ran)
    {
      if pending.Some? {
        pending := None;
      }
    }

    /** `schedule(fn, ms)`: clears first, so the only pending timer is the
        new one and the one it replaced never runs. */
    method Schedule(callback: nat, ms: nat)
      modifies this
      ensures pending == Some(Timer(callback, ms)) && ran == old(ran)
    {
      Clear();
      pending := Some(Timer(callback, ms));
    }

    /** The pending timer going off: the slot is emptied before the callback
        runs. */
    method Fire()
      requires pending.Some?
      modifies this
      ensures pending == None
      ensures ran == old(ran) + [Run(old(pending).value.callback, true)]
    {
      var t := pending.value;
      pending := None;
      ran := ran + [Run(t.callback, pending.None?)];
    }

    /** The effect's clean-up on unmount. */
    method Unmount()
      modifies this
      ensures pending == None && ran == old(ran)
    {
      Clear();
    }
  }

  /** Clearing twice leaves the same state as clearing once. */
  method ClearTwice(h: Hook)
    modifies h
    ensures h.pending == None && h.ran == old(h.ran)
  {
    h.Clear();
    ghost var once := h.pending;
    h.Clear();
    assert h.pending == once;
  }

  /** Two schedules in a row, then the timer goes off: only the second
      callback runs, and nothing is left pending. */
  method TwoSchedules(h: Hook, first: nat, second: nat, ms1: nat, ms2: nat)
    modifies h
    ensures h.pending == None
    ensures h.ran == old(h.ran) + [Run(second, true)]
  {
    h.Schedule(first, ms1);
    h.Schedule(second, ms2);
    h.Fire();
  }

  /** A schedule followed by an unmount: nothing runs, and no timer is left
      that could fire. */
  method ScheduleThenUnmount(h: Hook, callback: nat, ms: nat)
    modifies h
    ensures h.pending == None && h.ran == old(h.ran)
  {
    h.Schedule(callback, ms);
    h.Unmount();
  }
}
