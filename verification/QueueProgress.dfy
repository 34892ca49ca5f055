/** What is published can be ended: some continuation delivers its completion and ends it. */
module QueueProgress {
  import Ring
  import Pool
  import opened Queue
  import opened QueueOwnership
  import opened QueueTids
  import opened QueueGates
  import opened QueueProof
  import opened QueueTheorems
  import opened QueueSteps
  import opened QueueDelivery
  import QueueRace

  // ---------------------------------------------------------------- from an agent's hand to the end

  /** The request in an agent's hand still has its pages, or has given back some or all of them. */
  lemma InHandPages(s: State, a: AgentId)
    requires Own(BooksOf(s)) && Linked(s) && a in s.agents && Holding(s.agents[a].pc)
    ensures var r := s.agents[a].pc.req;
            && r in s.busy
            && (r in s.pool.holders ==> QueueRace.Freeable(s.pool, r))
  {
    assert AgentOk(BooksOf(s), a);
    assert LinkOk(s.pool.holders, s.busy, s.agents[a].pc.req);
  }

  /** DONE is set, pages are given back, the request is ended. */
  lemma MarkedEnds(o: State, s: State, a: AgentId) returns (t: State)
    requires Leads(o, s) && IsWorking(s, a, true)
    requires var r := s.agents[a].pc.req; r in s.pool.holders ==> QueueRace.Freeable(s.pool, r)
    ensures var r := s.agents[a].pc.req; Leads(o, t) && r !in t.busy && t.ends == Incr(s.ends, r)
  {
    var r := s.agents[a].pc.req;
    var u := s;
    if r in s.pool.holders {
      var steps := QueueRace.FreesAll(s.pool, r, []);
      u := QueueRace.LiftFrees(o, s, a, steps);
    }
    assert IsWorking(u, a, true);
    GoCompleter(o, u, a, End);
    t := DoEnd(u, a);
  }

  lemma WorkingEnds(o: State, s: State, a: AgentId) returns (t: State)
    requires Leads(o, s) && a in s.agents && s.agents[a].pc.Working?
    requires var r := s.agents[a].pc.req; r in s.pool.holders ==> QueueRace.Freeable(s.pool, r)
    ensures var r := s.agents[a].pc.req; Leads(o, t) && r !in t.busy && t.ends == Incr(s.ends, r)
  {
    if s.agents[a].pc.marked {
      t := MarkedEnds(o, s, a);
    } else {
      assert IsWorking(s, a, false);
      GoCompleter(o, s, a, Mark);
      t := MarkedEnds(o, DoMark(s, a), a);
    }
  }

  /** Whatever an agent has in its hand it can end, on its own. */
  lemma InHandCanEnd(s: State, a: AgentId) returns (t: State)
    requires Reachable(s) && a in s.agents && Holding(s.agents[a].pc)
    ensures var r := s.agents[a].pc.req; Leads(s, t) && r !in t.busy && t.ends == Incr(s.ends, r)
  {
    ReachableGood(s);
    InHandPages(s, a);
    LeadsHere(s);
    if s.agents[a].pc.Storing? {
      GoCompleter(s, s, a, Store);
      t := WorkingEnds(s, DoStore(s, a), a);
    } else {
      t := WorkingEnds(s, s, a);
    }
  }

  // ---------------------------------------------------------------- from the list to a hand

  /** Only completions, completers and the backend's history differ. */
  predicate SameRest(s: State, t: State) { t == s.(cq := t.cq, agents := t.agents, sent := t.sent) }

  /** A new completer takes the first completion. */
  lemma TakesFirst(o: State, s: State) returns (t: State, a: AgentId)
    requires Leads(o, s) && s.status != Removing && s.cq != []
    ensures Leads(o, t) && SameRest(s, t) && t.cq == s.cq[1..] && a in t.agents
            && t.agents[a] == Agent(Completer, Took(s.cq[0]), [])
  {
    a := Pool.Fresh(|s.agents.Keys| + 1, s.agents.Keys);
    GoOutside(o, s, Enter(a));
    var u := s.(agents := s.agents[a := Agent(Completer, Loop, [])]);
    assert AgentAt(u, a, Loop);
    GoCompleter(o, u, a, Take);
    t := CompleterNext(u, a, Take);
  }

  /** Completers take everything that waits in front of the last completion, and then that one. */
  lemma {:induction false} TakesLast(o: State, s: State) returns (t: State, a: AgentId)
    requires Leads(o, s) && s.status != Removing && s.cq != []
    ensures Leads(o, t) && SameRest(s, t) && a in t.agents
            && t.agents[a] == Agent(Completer, Took(s.cq[|s.cq| - 1]), [])
    decreases |s.cq|
  {
    t, a := TakesFirst(o, s);
    if |s.cq| > 1 { t, a := TakesLast(o, t); }
  }

  lemma SendsOne(o: State, s: State, tid: nat) returns (t: State)
    requires Leads(o, s) && tid != 0
    ensures Leads(o, t) && SameRest(s, t) && t.cq == s.cq + [tid] && t.agents == s.agents
  {
    GoOutside(o, s, Send(tid));
    t := s.(cq := s.cq + [tid], sent := s.sent + {tid});
  }

  /** A published request on the list of a queue that is not being removed can be ended. */
  lemma PublishedCanEnd(s: State, r: Req) returns (t: State)
    requires Reachable(s) && r in s.inflight && r in s.busy && s.busy[r] == Published && s.status != Removing
    ensures Leads(s, t) && r !in t.busy && t.ends == Incr(s.ends, r)
  {
    var u, a := Delivered(s, r);
    LeadsReachable(s, u);
    t := InHandCanEnd(u, a);
    LeadsTrans(s, u, t);
  }

  lemma ListedIsFetchable(s: State, r: Req)
    requires Reachable(s) && r in s.inflight && r in s.busy && s.busy[r] == Published
    ensures s.lock.None? && PduOf(s.pdu, r).tid != 0
  {
    ReachableGood(s);
    ListedTids(s, r);
  }

  lemma Delivered(s: State, r: Req) returns (t: State, a: AgentId)
    requires Reachable(s) && r in s.inflight && r in s.busy && s.busy[r] == Published && s.status != Removing
    ensures Leads(s, t) && !t.raced && t.ends == s.ends && a in t.agents && Holding(t.agents[a].pc)
            && t.agents[a].pc.req == r
  {
    ListedIsFetchable(s, r);
    LeadsHere(s);
    var s1 := SendsOne(s, s, PduOf(s.pdu, r).tid);
    var s2;
    s2, a := TakesLast(s, s1);
    LeadsReachable(s, s2);
    GoCompleter(s, s2, a, Fetch);
    t := DoFetch(s2, a);
    CompletionIsDelivered(s2, a, r);
    FetchFrame(s2, a);
  }

  // ---------------------------------------------------------------- a forced removal can finish

  /** A forced removal that has not flushed yet, on a queue nobody is about to stop. */
  ghost predicate Removable(s: State, a: AgentId) {
    Reachable(s) && s.status == Removing && s.lock.None? && a in s.agents
        && s.agents[a] == Agent(Remover(true), Entered, [])
  }

  lemma GoodIsSound(s: State)
    requires Good(s)
    ensures QueueRace.Sound(s)
  {
  }

  lemma RemovableSound(s: State, a: AgentId)
    requires Removable(s, a)
    ensures QueueRace.Sound(s) && s.stopper.Idle?
  {
    ReachableGood(s);
    GoodIsSound(s);
    RemovingIsIdle(s);
  }

  lemma RemovingIsIdle(s: State)
    requires Gates(GateOf(s)) && s.status == Removing
    ensures s.stopper.Idle?
  {
  }

  lemma RemovalFlushes(s: State, a: AgentId) returns (t: State)
    requires Removable(s, a)
    ensures QueueRace.DrainingFrom(s, t, a, Removing)
  {
    RemovableSound(s, a);
    LeadsHere(s);
    t := QueueRace.LateFlush(s, s, a);
  }

  /** It waits for the workers to return and takes the list. */
  lemma RemovalSplices(s: State, a: AgentId) returns (t: State)
    requires Removable(s, a)
    ensures Leads(s, t) && t.works == map[] && t.inflight == [] && t.status == Removing && t.lock.None?
    ensures a in t.agents && QueueRace.Popping(t, a, Loop, t.agents[a].tmp) && QueueRace.Held(t.pool, t.agents[a].tmp)
  {
    var s1 := RemovalFlushes(s, a);
    var s2 := QueueRace.DrainWorks(s, s1, a, Removing);
    var s3 := QueueRace.DrainNotify(s, s2, a, Removing);
    var s4 := QueueRace.FinishFlush(s, s3, a, Removing);
    FlushedListHolds(s4);
    assert AgentAt(s4, a, Flushed);
    GoRemover(s, s4, a, Splice);
    t := DoSplice(s4, a);
  }

  lemma FlushedListHolds(s: State)
    requires QueueRace.Sound(s) && s.works == map[]
    ensures QueueRace.Held(s.pool, s.inflight)
  {
    ListIsPublished(BooksOf(s));
    forall q | q in s.inflight ensures Pool.In(s.pool, q, Pool.Held) { assert LinkOk(s.pool.holders, s.busy, q); }
  }

  /** It ends what it took, one by one, and is gone. */
  lemma {:induction false} RemovalEnds(o: State, s: State, a: AgentId, tmp: seq<Req>) returns (t: State)
    requires Leads(o, s) && QueueRace.Popping(s, a, Loop, tmp) && QueueRace.Held(s.pool, tmp)
    ensures Leads(o, t) && a !in t.agents && t.works == s.works && t.inflight == s.inflight && t.status == s.status
            && t.lock == s.lock
    decreases |tmp|
  {
    if tmp == [] {
      GoCompleter(o, s, a, Exit);
      t := s.(agents := s.agents - {a});
    } else {
      var u := QueueRace.PopsOne(o, s, a, tmp);
      t := RemovalEnds(o, u, a, tmp[1..]);
    }
  }

  lemma RemovalKeepsBooks(s: State, a: AgentId, t: State)
    requires Removable(s, a) && Leads(s, t)
    ensures Own(BooksOf(t))
  {
    ReachableGood(s);
    var run :| RunOk(s, run) && Final(s, run) == t;
    RemovingForever(s, run);
  }

  /**
   A forced removal can run to its end: the workers have returned, the list is empty, and whatever is still
   started is in the hand or on the list of another agent.
   */
  lemma ForcedRemovalCanFinish(s: State, a: AgentId) returns (t: State)
    requires Removable(s, a)
    ensures Leads(s, t) && a !in t.agents && t.works == map[] && t.inflight == []
    ensures forall r :: r in t.busy ==> exists b :: b != a && (InTmp(BooksOf(t), r, b) || InHand(BooksOf(t), r, b))
  {
    var u := RemovalSplices(s, a);
    t := RemovalEnds(s, u, a, u.agents[a].tmp);
    RemovalKeepsBooks(s, a, t);
    forall r | r in t.busy ensures exists b :: b != a && (InTmp(BooksOf(t), r, b) || InHand(BooksOf(t), r, b)) {
      PlaceIsTaken(BooksOf(t), r);
    }
  }
}
