/** The event counter of a queue's character device and the listeners that follow it. */
module Notify {
  import Ring
  import opened Queue
  import opened QueueTheorems

  /** A 32-bit counter shows a listener that it is behind, unless it is behind by a multiple of 2^32. */
  lemma CounterHidesWholeTurns(acked: nat, total: nat)
    requires acked <= total
    ensures Ring.U32(acked) == Ring.U32(total) <==> (total - acked) % Ring.U32_LIMIT == 0
  {
    var d := total - acked;
    assert total == acked + d;
  }

  /** Events never run ahead of publications; the difference is the workers about to notify. */
  lemma EventsFollowPublications(s: State)
    requires Reachable(s)
    ensures s.events <= s.ring.tid && s.ring.tid - s.events == |s.notifying|
  {
    ReachableGood(s);
  }

  class KringDevice {
    var event: nat
    ghost var total: nat

    ghost predicate Valid()
      reads this
    {
      event == Ring.U32(total)
    }

    constructor ()
      ensures Valid() && total == 0
    {
      event, total := 0, 0;
    }

    /** ubbd_kring_event_notify, called by worker `w` of queue `s`: the counter follows the queue's events. */
    method EventNotify(ghost s: State, ghost w: Work)
      requires Valid() && s.g.Ok() && WorkerCan(s, w, Notify) && total == s.events
      modifies this
      ensures Valid() && total == old(total) + 1 && total == WorkerNext(s, w, Notify).events
    {
      event := Ring.U32(event + 1);
      total := total + 1;
    }

    /** Workers notify `n` times. */
    method Arrive(n: nat)
      requires Valid()
      modifies this
      ensures Valid() && total == old(total) + n
    {
      for i := 0 to n
        invariant Valid() && total == old(total) + i
      {
        event := Ring.U32(event + 1);
        total := total + 1;
      }
    }
  }

  datatype ReadResult = Count | Invalid | Fault | Again | Gone | Interrupted | Asleep

  /**
   What a reader meets in one round of its loop: events since the last round, and whether the device was
   unregistered or a signal came.
   */
  datatype Round = Round(arrived: nat, gone: bool, signal: bool)

  /** Events of the first `k` rounds. */
  function Arrived(rounds: seq<Round>, k: nat): nat
    requires k <= |rounds|
  {
    if k == 0 then 0 else Arrived(rounds, k - 1) + rounds[k - 1].arrived
  }

  /** By the end of round `j` the counter shows a listener told of `acked` events that it is behind. */
  predicate News(rounds: seq<Round>, j: nat, acked: nat, total: nat)
    requires j < |rounds| && acked <= total
  {
    (total + Arrived(rounds, j + 1) - acked) % Ring.U32_LIMIT != 0
  }

  predicate EndsWait(rounds: seq<Round>, j: nat, acked: nat, total: nat, nonblock: bool)
    requires j < |rounds| && acked <= total
  {
    rounds[j].gone || News(rounds, j, acked, total) || nonblock || rounds[j].signal
  }

  /** A device that is gone comes first, then news, then a reader that will not wait, then a signal. */
  function Verdict(rounds: seq<Round>, j: nat, acked: nat, total: nat, nonblock: bool, copyOk: bool): ReadResult
    requires j < |rounds| && acked <= total
  {
    if rounds[j].gone then Gone
    else if News(rounds, j, acked, total) then (if copyOk then Count else Fault)
    else if nonblock then Again
    else Interrupted
  }

  class Listener {
    const dev: KringDevice
    var eventCount: nat
    ghost var acked: nat          // how many events the listener has been told of

    ghost predicate Valid()
      reads this, dev
    {
      dev.Valid() && eventCount == Ring.U32(acked) && acked <= dev.total
    }

    /** The counters agree. */
    ghost predicate Level()
      reads this, dev
    {
      eventCount == dev.event
    }

    /** ubbd_kring_open starts the listener level with the counter. */
    constructor (dev: KringDevice)
      requires dev.Valid()
      ensures Valid() && this.dev == dev && acked == dev.total
    {
      this.dev, eventCount, acked := dev, dev.event, dev.total;
    }

    /** ubbd_kring_poll: readable, and level again, exactly when the counters differ. */
    method Poll() returns (ready: bool)
      requires Valid()
      modifies this`eventCount, this`acked
      ensures Valid() && Level()
      ensures ready <==> (dev.total - old(acked)) % Ring.U32_LIMIT != 0
      ensures acked == if ready then dev.total else old(acked)
    {
      CounterHidesWholeTurns(acked, dev.total);
      ready := eventCount != dev.event;
      if ready { eventCount, acked := dev.event, dev.total; }
    }

    /** The comparison and copy inside the loop of ubbd_kring_read; a failed copy acknowledges nothing. */
    method CopyOut(copyOk: bool) returns (r: ReadResult, value: nat)
      requires Valid() && !Level()
      modifies this`eventCount, this`acked
      ensures Valid() && value == dev.event
      ensures r == if copyOk then Count else Fault
      ensures if copyOk then acked == dev.total && old(acked) < acked else acked == old(acked)
    {
      value := dev.event;
      if !copyOk { return Fault, value; }
      eventCount, acked := value, dev.total;
      r := Count;
    }

    /**
     ubbd_kring_read over the rounds it meets; `met` is the round that ends the wait, and Asleep means that it
     still waits after the last of them.
     */
    method Read(count: nat, nonblock: bool, copyOk: bool, rounds: seq<Round>)
        returns (r: ReadResult, value: nat, met: nat)
      requires Valid()
      modifies this`eventCount, this`acked, dev
      ensures Valid() && met <= |rounds|
      ensures count != 4 ==> r == Invalid && dev.total == old(dev.total) && acked == old(acked)
      ensures count == 4 ==> dev.total == old(dev.total) + Arrived(rounds, if met < |rounds| then met + 1 else met)
      ensures count == 4 ==> forall j :: 0 <= j < met ==> !EndsWait(rounds, j, old(acked), old(dev.total), nonblock)
      ensures count == 4 && met < |rounds| ==>
                && EndsWait(rounds, met, old(acked), old(dev.total), nonblock)
                && r == Verdict(rounds, met, old(acked), old(dev.total), nonblock, copyOk)
      ensures count == 4 && met == |rounds| ==> r == Asleep
      ensures if r.Count? then value == dev.event && acked == dev.total && old(acked) < acked else acked == old(acked)
      ensures r.Again? || r.Interrupted? || (r.Asleep? && rounds != []) ==> Level()
    {
      value, met := dev.event, 0;
      if count != 4 { return Invalid, value, 0; }
      while met < |rounds|
        invariant met <= |rounds| && Valid() && acked == old(acked)
        invariant dev.total == old(dev.total) + Arrived(rounds, met) && (met > 0 ==> Level())
        invariant forall j :: 0 <= j < met ==> !EndsWait(rounds, j, old(acked), old(dev.total), nonblock)
      {
        dev.Arrive(rounds[met].arrived);
        CounterHidesWholeTurns(acked, dev.total);
        if rounds[met].gone { return Gone, value, met; }
        if dev.event != eventCount {
          r, value := CopyOut(copyOk);
          return;
        }
        value := dev.event;
        if nonblock { return Again, value, met; }
        if rounds[met].signal { return Interrupted, value, met; }
        met := met + 1;
      }
      r := Asleep;
    }
  }

  /**
   A listener level with the queue's counter, with no worker about to notify, has been told of every published
   command.
   */
  lemma LevelListenerSawEverything(s: State, l: Listener)
    requires Reachable(s) && s.notifying == {}
    requires l.Valid() && l.dev.total == s.events && l.Level() && s.events - l.acked < Ring.U32_LIMIT
    ensures l.acked == s.ring.tid
  {
    EventsFollowPublications(s);
    CounterHidesWholeTurns(l.acked, l.dev.total);
  }
}
