/** Queue status, flushes and the inflight lock: the third part of the queue's invariant. */
module QueueGates {
  import Pool
  import opened Queue
  import opened QueueOwnership

  /** The part of a queue's state that status changes and flushes depend on. */
  datatype Gate = Gate(status: Status, lock: Pool.Option<AgentId>, works: map<Work, Worker>, inflight: seq<Req>,
                       agents: map<AgentId, Agent>, stopper: Stopper, sealed: bool)

  function GateOf(s: State): Gate { Gate(s.status, s.lock, s.works, s.inflight, s.agents, s.stopper, s.sealed) }

  /** Every worker past its status check was queued before `limit`. */
  ghost predicate ActiveBelow(works: map<Work, Worker>, limit: Work) {
    forall w :: w in works && works[w].pc != Queued ==> w < limit
  }

  ghost predicate AgentGate(b: Gate, a: AgentId)
    requires a in b.agents
  {
    var ag := b.agents[a];
    && (ag.pc.Storing? ==> b.lock == Pool.Some(a))
    && (ag.kind == Remover(true) ==>
          && b.status == Removing && b.lock.None?
          && (ag.pc.FlushWait? ==> ActiveBelow(b.works, ag.pc.limit))
          && (!ag.pc.Entered? && !ag.pc.FlushWait? ==> NoneActive(b.works)))
  }

  ghost predicate StopGate(b: Gate) {
    match b.stopper
    case Idle => b.status == Stopping ==> NoneActive(b.works) && (b.lock.None? ==> b.inflight != [])
    case StopSet => b.status == Stopping || b.status == Stopped
    case StopWait(limit) => (b.status == Stopping || b.status == Stopped) && ActiveBelow(b.works, limit)
    case StopFlushed => (b.status == Stopping || b.status == Stopped) && NoneActive(b.works)
  }

  ghost predicate Gates(b: Gate) {
    && (b.lock.Some? ==> b.lock.value in b.agents && b.agents[b.lock.value].pc.Storing? && b.inflight == [])
    && (b.status == Stopped ==> b.lock.None?)
    && (forall a :: a in b.agents ==> AgentGate(b, a))
    && StopGate(b)
    && (b.sealed ==> b.status == Removing && b.lock.None? && b.inflight == [] && NoneActive(b.works))
  }

  /** Workers come, move or return, but none newly passes the status check. */
  lemma GatesWorks(b: Gate, works: map<Work, Worker>)
    requires Gates(b)
    requires forall w :: w in works && works[w].pc != Queued ==> w in b.works && b.works[w].pc != Queued
    ensures Gates(b.(works := works))
  {
    var c := b.(works := works);
    forall a | a in c.agents ensures AgentGate(c, a) { assert AgentGate(b, a); }
  }

  /** An active worker changes the list. */
  lemma GatesList(b: Gate, w: Work, works: map<Work, Worker>, inflight: seq<Req>)
    requires Gates(b) && w in b.works && b.works[w].pc != Queued
    requires forall v :: v in works && works[v].pc != Queued ==> v in b.works && b.works[v].pc != Queued
    requires b.lock.Some? ==> inflight == b.inflight
    ensures Gates(b.(works := works, inflight := inflight))
  {
    var c := b.(works := works, inflight := inflight);
    assert !NoneActive(b.works);
    forall a | a in c.agents ensures AgentGate(c, a) { assert AgentGate(b, a); }
  }

  /** A worker passes the status check, which only a running queue allows. */
  lemma GatesAdmit(b: Gate, works: map<Work, Worker>)
    requires Gates(b) && b.status == Running
    ensures Gates(b.(works := works))
  {
    var c := b.(works := works);
    forall a | a in c.agents ensures AgentGate(c, a) { assert AgentGate(b, a); }
  }

  /** fetch_inflight_req: the request leaves the list; draining a stopping queue keeps the lock for the store. */
  lemma GatesFetch(b: Gate, a: AgentId, r: Req, inflight: seq<Req>)
    requires Gates(b) && b.lock.None? && a in b.agents && b.agents[a].kind.Completer? && !b.agents[a].pc.Storing?
    requires b.inflight == [] ==> inflight == []
    ensures if b.status == Stopping && inflight == []
            then Gates(b.(inflight := inflight, lock := Pool.Some(a),
                agents := b.agents[a := b.agents[a].(pc := Storing(r))]))
            else Gates(b.(inflight := inflight, agents := b.agents[a := b.agents[a].(pc := Working(r, false))]))
  {
    var stop := b.status == Stopping && inflight == [];
    var c := b.(inflight := inflight, lock := if stop then Pool.Some(a) else b.lock,
                agents := b.agents[a := b.agents[a].(pc := if stop then Storing(r) else Working(r, false))]);
    forall d | d in c.agents ensures AgentGate(c, d) { assert AgentGate(b, d); }
  }

  /** The completer's late write of STOPPED cannot meet a removal. */
  lemma GatesStore(b: Gate, a: AgentId)
    requires Gates(b) && a in b.agents && b.agents[a].pc.Storing? && b.agents[a].kind.Completer?
    ensures Gates(b.(status := Stopped, lock := Pool.None,
            agents := b.agents[a := b.agents[a].(pc := Working(b.agents[a].pc.req, false))]))
  {
    var c := b.(status := Stopped, lock := Pool.None,
        agents := b.agents[a := b.agents[a].(pc := Working(b.agents[a].pc.req, false))]);
    assert AgentGate(b, a);
    forall d | d in c.agents ensures AgentGate(c, d) { assert AgentGate(b, d); }
  }

  /** An agent moves on; entering or leaving a flush is separate. */
  lemma GatesPc(b: Gate, a: AgentId, ag: Agent)
    requires Gates(b) && a in b.agents && ag.kind == b.agents[a].kind
    requires !ag.pc.Storing? && !b.agents[a].pc.Storing?
    requires ag.kind == Remover(true) ==> || (ag.pc.FlushWait? && ActiveBelow(b.works, ag.pc.limit))
                                          || NoneActive(b.works)
    ensures Gates(b.(agents := b.agents[a := ag]))
  {
    var c := b.(agents := b.agents[a := ag]);
    assert AgentGate(b, a);
    forall d | d in c.agents ensures AgentGate(c, d) { assert AgentGate(b, d); }
  }

  lemma GatesArrive(b: Gate, a: AgentId)
    requires Gates(b) && a !in b.agents
    ensures Gates(b.(agents := b.agents[a := Agent(Completer, Loop, [])]))
  {
    var c := b.(agents := b.agents[a := Agent(Completer, Loop, [])]);
    forall d | d in c.agents ensures AgentGate(c, d) { if d != a { assert AgentGate(b, d); } }
  }

  lemma GatesDepart(b: Gate, a: AgentId)
    requires Gates(b) && a in b.agents && !b.agents[a].pc.Storing?
    ensures Gates(b.(agents := b.agents - {a}))
  {
    var c := b.(agents := b.agents - {a});
    forall d | d in c.agents ensures AgentGate(c, d) { assert AgentGate(b, d); }
  }

  /** A removal that, if it is forced, does not race a completer's store. */
  lemma GatesRemove(b: Gate, a: AgentId, force: bool)
    requires Gates(b) && a !in b.agents && b.stopper.Idle? && (force ==> b.lock.None?)
    ensures Gates(b.(status := Removing, agents := b.agents[a := Agent(Remover(force), Entered, [])]))
  {
    var c := b.(status := Removing, agents := b.agents[a := Agent(Remover(force), Entered, [])]);
    forall d | d in c.agents ensures AgentGate(c, d) { if d != a { assert AgentGate(b, d); } }
  }

  lemma GatesSplice(b: Gate, a: AgentId, ag: Agent)
    requires Gates(b) && a in b.agents && b.agents[a].pc.Flushed? && b.agents[a].kind == Remover(true)
    requires ag.kind == b.agents[a].kind && ag.pc.Loop?
    ensures NoneActive(b.works)
    ensures Gates(b.(agents := b.agents[a := ag], inflight := [], sealed := true))
  {
    var c := b.(agents := b.agents[a := ag], inflight := [], sealed := true);
    assert AgentGate(b, a);
    forall d | d in c.agents ensures AgentGate(c, d) { assert AgentGate(b, d); }
  }

  /** queue_stop and queue_start write the status while no removal has begun. */
  lemma GatesStatus(b: Gate, status: Status, stopper: Stopper)
    requires Gates(b) && b.status != Removing && status != Removing && (status == Stopped ==> b.lock.None?)
    requires StopGate(b.(status := status, stopper := stopper))
    ensures Gates(b.(status := status, stopper := stopper))
  {
    var c := b.(status := status, stopper := stopper);
    forall d | d in c.agents ensures AgentGate(c, d) { assert AgentGate(b, d); }
  }

  /** A finished flush leaves no worker past its status check. */
  lemma FlushLeavesNoneActive(s: State, limit: Work)
    requires ActiveBelow(s.works, limit) && Drained(s, limit)
    ensures NoneActive(s.works)
  {
  }
}
