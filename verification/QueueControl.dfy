/**
 The inflight list and the queue status as the driver updates them in place, each method proved to be
 steps of the queue's state machine.
 */
module QueueControl {
  import Pool
  import opened Queue
  import opened QueueOwnership
  import opened QueueProof
  import opened QueueTheorems
  import opened QueueQuiet

  const EINVAL: int := -22

  /** Unlinking the node found at `i` is removing that request. */
  lemma {:induction false} UnlinkIsWithout(xs: seq<Req>, i: nat)
    requires i < |xs| && Pool.Distinct(xs)
    ensures xs[..i] + xs[i + 1..] == Without(xs, xs[i])
    decreases |xs|
  {
    if i == 0 {
      assert xs[0] !in xs[1..];
      WithoutAbsent(xs[1..], xs[0]);
    } else {
      UnlinkIsWithout(xs[1..], i - 1);
      assert xs[..i] + xs[i + 1..] == [xs[0]] + (xs[1..][..i - 1] + xs[1..][i..]);
    }
  }

  lemma {:induction false} WithoutAbsent(xs: seq<Req>, r: Req)
    requires r !in xs
    ensures Without(xs, r) == xs
  {
    if xs != [] { WithoutAbsent(xs[1..], r); }
  }

  // ---------------------------------------------------------------- what the steps mean for every continuation

  /** The queue keeps this status whatever happens next. */
  ghost predicate Forever(s: State, status: Status) {
    forall run :: RunOk(s, run) ==> Final(s, run).status == status
  }

  ghost predicate EmptyForever(s: State) {
    forall run :: RunOk(s, run) ==> Final(s, run).inflight == []
  }

  lemma RemovingIsForever(s: State)
    requires Reachable(s) && s.status == Removing
    ensures Forever(s, Removing) <==> s.lock.None?
  {
    ReachableGood(s);
    if s.lock.None? {
      forall run | RunOk(s, run) ensures Final(s, run).status == Removing { RemovingForever(s, run); }
    } else {
      StoreStops(s, s.lock.value);
    }
  }

  lemma ControlReachable(s: State, step: ControlStep)
    requires Reachable(s) && ControlCan(s, step)
    ensures Reachable(ControlNext(s, step))
  {
    ReachableGood(s);
    FlagsControl(s, step);
    ReachableStep(s, ByControl(step));
  }

  lemma CompleterReachable(s: State, a: AgentId, step: CompleterStep)
    requires Reachable(s) && CompleterCan(s, a, step)
    ensures Reachable(CompleterNext(s, a, step))
  {
    ReachableGood(s);
    FlagsCompleter(s, a, step);
    ReachableStep(s, ByCompleter(a, step));
  }

  lemma SpliceReachable(s: State, a: AgentId)
    requires Reachable(s) && RemoverCan(s, a, Splice)
    ensures Reachable(DoSplice(s, a)) && EmptyForever(DoSplice(s, a))
  {
    ReachableGood(s);
    FlagsRemover(s, a, Splice);
    ReachableStep(s, ByRemover(a, Splice));
    forall run | RunOk(DoSplice(s, a), run) ensures Final(DoSplice(s, a), run).inflight == [] {
      ForcedRemovalIsFinal(DoSplice(s, a), run);
    }
  }

  /** Once queue_stop has returned, a drained queue stays drained until it is started. */
  lemma StopDrains(s: State)
    requires Reachable(s) && ControlCan(s, StopCheck) && s.inflight == []
    ensures !CanRefill(ControlNext(s, StopCheck))
  {
    var t := ControlNext(s, StopCheck);
    ControlReachable(s, StopCheck);
    ReachableGood(s);
    assert NoneActive(s.works) && t.works == s.works;
    StoppedStaysDrained(t);
  }

  predicate Stands(s: State, r: Req, loc: Loc) { r in s.busy && s.busy[r] == loc }

  /** What a completer finds has been published, and is now in its hand. */
  lemma FetchHands(s: State, a: AgentId)
    requires Reachable(s) && CompleterCan(s, a, Fetch)
    ensures var f := Find(s.inflight, s.pdu, s.agents[a].pc.tid);
            f.Some? ==> Stands(s, f.value, Published) && Stands(DoFetch(s, a), f.value, Fetched(a))
  {
    ReachableGood(s);
    FetchFacts(s, a);
  }

  /** fetch_inflight_req without interruption: the store follows the read at once. */
  ghost function FetchAndStore(s: State, a: AgentId): State
    requires a in s.agents && s.agents[a].pc.Took?
  {
    var t := DoFetch(s, a);
    if CompleterCan(t, a, Store) then DoStore(t, a) else t
  }

  /** The status word, the inflight list and the request data; `view` is the queue they are part of. */
  class InflightQueue {
    var status: Status
    var inflight: seq<Req>
    var pdu: map<Req, Pdu>
    ghost var view: State

    ghost predicate Valid()
      reads this
    {
      Reachable(view) && status == view.status && inflight == view.inflight && pdu == view.pdu
    }

    /** The search and list_del of fetch_inflight_req. */
    method Unlink(tid: nat) returns (f: Pool.Option<Req>)
      requires Pool.Distinct(inflight)
      modifies this`inflight
      ensures f == Find(old(inflight), pdu, tid)
      ensures inflight == if f.Some? then Without(old(inflight), f.value) else old(inflight)
    {
      var i := 0;
      while i < |inflight|
        invariant 0 <= i <= |inflight| && inflight == old(inflight)
        invariant Find(inflight, pdu, tid) == Find(inflight[i..], pdu, tid)
      {
        var r := inflight[i];
        if PduOf(pdu, r).tid == tid {
          UnlinkIsWithout(inflight, i);
          inflight := inflight[..i] + inflight[i + 1..];
          return Pool.Some(r);
        }
        assert inflight[i..][1..] == inflight[i + 1..];
        i := i + 1;
      }
      f := Pool.None;
    }

    /** fetch_inflight_req up to its status read, by completer `a`; `drained` tells it to write STOPPED. */
    method FetchRead(ghost a: AgentId, tid: nat) returns (f: Pool.Option<Req>, drained: bool)
      requires Valid() && CompleterCan(view, a, Fetch) && view.agents[a].pc.tid == tid
      modifies this`inflight, this`view
      ensures Valid() && view == DoFetch(old(view), a)
      ensures f.Some? ==> Stands(old(view), f.value, Published) && Stands(view, f.value, Fetched(a))
      ensures drained <==> CompleterCan(view, a, Store)
      ensures drained <==> f.Some? && status == Stopping && inflight == []
    {
      ListDistinct(view);
      FetchHands(view, a);
      CompleterReachable(view, a, Fetch);
      f := Unlink(tid);
      drained := f.Some? && status == Stopping && inflight == [];
      FetchRest(view, a);
      view := DoFetch(view, a);
    }

    /** Its status write. */
    method FetchWrite(ghost a: AgentId)
      requires Valid() && CompleterCan(view, a, Store)
      modifies this`status, this`view
      ensures Valid() && view == DoStore(old(view), a) && status == Stopped && view.busy == old(view).busy
    {
      CompleterReachable(view, a, Store);
      status := Stopped;
      view := DoStore(view, a);
    }

    /** fetch_inflight_req when nothing comes between: a queue it drains is not left STOPPING. */
    method FetchInflight(ghost a: AgentId, tid: nat) returns (f: Pool.Option<Req>)
      requires Valid() && CompleterCan(view, a, Fetch) && view.agents[a].pc.tid == tid
      modifies this`status, this`inflight, this`view
      ensures Valid() && view == FetchAndStore(old(view), a)
      ensures f.Some? ==> Stands(old(view), f.value, Published) && Stands(view, f.value, Fetched(a))
      ensures f.Some? && inflight == [] ==> status != Stopping
    {
      var drained;
      f, drained := FetchRead(a, tid);
      if drained { FetchWrite(a); }
    }

    /**
     queue_start: refused on a removing queue, otherwise RUNNING; either lasts iff no completer is about to
     write STOPPED.
     */
    method StartQueue() returns (ret: int)
      requires Valid() && view.stopper.Idle?
      modifies this`status, this`view
      ensures Valid()
      ensures ret == 0 ==> ControlCan(old(view), Start) && view == ControlNext(old(view), Start)
      ensures ret == 0 ==> (StaysRunning(view) <==> view.lock.None?)
      ensures ret != 0 ==> ret == EINVAL && view == old(view) && (Forever(view, Removing) <==> view.lock.None?)
    {
      if status == Removing {
        RemovingIsForever(view);
        return EINVAL;
      }
      ControlReachable(view, Start);
      StartSticks(view);
      if status != Running { status := Running; }
      view := ControlNext(view, Start);
      ret := 0;
    }

    /**
     queue_stop up to its flush, which follows only when the queue was running; an error means it is being
     removed.
     */
    method BeginStop() returns (ret: int, flush: bool)
      requires Valid() && view.stopper.Idle?
      modifies this`status, this`view
      ensures Valid()
      ensures flush <==> ControlCan(old(view), Stop)
      ensures view == if flush then ControlNext(old(view), Stop) else old(view)
      ensures ret == 0 ==> status == Stopping || status == Stopped
      ensures ret != 0 ==> ret == EINVAL && (Forever(view, Removing) <==> view.lock.None?)
    {
      if status == Stopping || status == Stopped { return 0, false; }
      if status != Running {
        RemovingIsForever(view);
        return EINVAL, false;
      }
      ControlReachable(view, Stop);
      status := Stopping;
      view := ControlNext(view, Stop);
      return 0, true;
    }

    /** queue_stop after its flush: a drained queue is STOPPED and stays drained until it is started. */
    method FinishStop()
      requires Valid() && ControlCan(view, StopCheck)
      modifies this`status, this`view
      ensures Valid() && view == ControlNext(old(view), StopCheck)
      ensures inflight == [] ==> status == Stopped && !CanRefill(view)
      ensures status == Stopping ==> inflight != []
    {
      ControlReachable(view, StopCheck);
      if inflight == [] {
        StopDrains(view);
        status := Stopped;
      }
      view := ControlNext(view, StopCheck);
    }

    /** The splice of ubbd_queue_end_inflight_reqs: published requests only, and the list stays empty for good. */
    method SpliceAll(ghost a: AgentId) returns (tmp: seq<Req>)
      requires Valid() && RemoverCan(view, a, Splice)
      modifies this`inflight, this`view
      ensures Valid() && view == DoSplice(old(view), a) && tmp == view.agents[a].tmp
      ensures forall r :: r in tmp ==> Stands(old(view), r, Published)
      ensures EmptyForever(view)
    {
      SpliceReachable(view, a);
      forall r | r in inflight ensures Stands(view, r, Published) { SpliceTakesPublishedOnly(view, a, r); }
      tmp := inflight;
      inflight := [];
      view := DoSplice(view, a);
    }
  }

  lemma ListDistinct(s: State)
    requires Reachable(s)
    ensures Pool.Distinct(s.inflight)
  {
    ReachableGood(s);
  }

  lemma TakeOffRest(s: State, a: AgentId, r: Req, rest: seq<Req>)
    requires a in s.agents
    ensures var t := TakeOff(s, a, r, rest);
            && t.status == s.status && t.pdu == s.pdu && t.inflight == rest
            && (CompleterCan(t, a, Store) <==> s.status == Stopping && rest == [])
  {
  }

  /** What DoFetch does to the list and when it leaves the completer about to write. */
  lemma FetchRest(s: State, a: AgentId)
    requires a in s.agents && s.agents[a].pc.Took?
    ensures var f := Find(s.inflight, s.pdu, s.agents[a].pc.tid);
            var t := DoFetch(s, a);
            && t.status == s.status && t.pdu == s.pdu
            && t.inflight == (if f.Some? then Without(s.inflight, f.value) else s.inflight)
            && (CompleterCan(t, a, Store) <==> f.Some? && s.status == Stopping && t.inflight == [])
  {
    var f := Find(s.inflight, s.pdu, s.agents[a].pc.tid);
    if f.Some? { TakeOffRest(s, a, f.value, Without(s.inflight, f.value)); }
  }
}
