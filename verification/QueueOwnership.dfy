/** Every started request is in exactly one place: the first part of the queue's invariant. */
module QueueOwnership {
  import Pool
  import opened Queue

  /** The part of a queue's state that says who holds which request. */
  datatype Books = Books(works: map<Work, Worker>, nextWork: Work, inflight: seq<Req>, agents: map<AgentId, Agent>,
      busy: map<Req, Loc>)

  function BooksOf(s: State): Books { Books(s.works, s.nextWork, s.inflight, s.agents, s.busy) }

  function LocOf(w: Work, pc: WorkPc): (l: Loc)
    ensures Unpublished(l) && l.w == w
  {
    match pc
    case Queued => Pending(w)
    case Filling => Preparing(w)
    case Ready => Prepared(w)
    case Enlisted => Listed(w)
    case RingFull => Listed(w)
  }

  predicate At(b: Books, r: Req, loc: Loc) { r in b.busy && b.busy[r] == loc }

  predicate OnList(loc: Loc) { loc.Listed? || loc.Published? }

  ghost predicate WorkOk(b: Books, w: Work)
    requires w in b.works
  {
    w < b.nextWork && At(b, b.works[w].req, LocOf(w, b.works[w].pc))
  }

  ghost predicate ListOk(b: Books) {
    && Pool.Distinct(b.inflight)
    && forall r :: r in b.inflight <==> r in b.busy && OnList(b.busy[r])
  }

  predicate Flushing(pc: Pc) { pc.Entered? || pc.FlushWait? || pc.Flushed? }

  predicate Holding(pc: Pc) { pc.Storing? || pc.Working? }

  ghost predicate AgentOk(b: Books, a: AgentId)
    requires a in b.agents
  {
    var ag := b.agents[a];
    && (ag.pc.Storing? ==> At(b, ag.pc.req, Fetched(a)))
    && (ag.pc.Working? ==> At(b, ag.pc.req, if ag.pc.marked then Marked(a) else Fetched(a)))
    && Pool.Distinct(ag.tmp)
    && (forall r :: r in ag.tmp ==> At(b, r, Spliced(a)))
    && (if ag.kind.Completer? then ag.tmp == [] && !Flushing(ag.pc) else !ag.pc.Took? && !ag.pc.Storing?)
    && (Flushing(ag.pc) ==> ag.tmp == [])
    && (ag.kind == Remover(false) ==> Flushing(ag.pc))
  }

  /** The converse: where history says a request is, the driver's own data has it. */
  ghost predicate BusyOk(b: Books, r: Req)
    requires r in b.busy
  {
    match b.busy[r]
    case Published => true
    case Spliced(a) => a in b.agents && r in b.agents[a].tmp
    case Fetched(a) => a in b.agents && (b.agents[a].pc == Storing(r) || b.agents[a].pc == Working(r, false))
    case Marked(a) => a in b.agents && b.agents[a].pc == Working(r, true)
    case _ => b.busy[r].w in b.works && b.works[b.busy[r].w].req == r
  }

  ghost predicate Own(b: Books) {
    && (forall w :: w in b.works ==> WorkOk(b, w))
    && ListOk(b)
    && (forall a :: a in b.agents ==> AgentOk(b, a))
    && (forall r :: r in b.busy ==> BusyOk(b, r))
  }

  predicate InHandOf(loc: Loc, a: AgentId) { loc == Spliced(a) || loc == Fetched(a) || loc == Marked(a) }

  /** An agent is unaffected by what happens to requests that are not in its hands. */
  lemma AgentFrame(b: Books, c: Books, a: AgentId)
    requires a in b.agents && a in c.agents && b.agents[a] == c.agents[a] && AgentOk(b, a)
    requires forall q :: q in b.busy && InHandOf(b.busy[q], a) ==> At(c, q, b.busy[q])
    ensures AgentOk(c, a)
  {
    var tmp := b.agents[a].tmp;
    forall r | r in tmp ensures At(c, r, Spliced(a)) { assert At(b, r, Spliced(a)); }
  }

  /** A request is started and its work queued. */
  lemma OwnStart(b: Books, r: Req)
    requires Own(b) && r !in b.busy
    ensures Own(b.(works := b.works[b.nextWork := Worker(r, Queued)], nextWork := b.nextWork + 1,
            busy := b.busy[r := Pending(b.nextWork)]))
  {
    var c := b.(works := b.works[b.nextWork := Worker(r, Queued)], nextWork := b.nextWork + 1,
        busy := b.busy[r := Pending(b.nextWork)]);
    assert b.nextWork !in b.works by { assert b.nextWork in b.works ==> WorkOk(b, b.nextWork); }
    forall w | w in c.works ensures WorkOk(c, w) { if w in b.works { assert WorkOk(b, w); } }
    forall a | a in c.agents ensures AgentOk(c, a) { assert AgentOk(b, a); }
    forall q | q in c.busy ensures BusyOk(c, q) { if q != r { assert BusyOk(b, q); } }
  }

  /** A worker moves its request one phase on, on or off the list. */
  lemma OwnPhase(b: Books, w: Work, pc: WorkPc)
    requires Own(b) && w in b.works
    requires OnList(LocOf(w, b.works[w].pc)) == OnList(LocOf(w, pc))
    ensures Own(b.(works := b.works[w := b.works[w].(pc := pc)], busy := b.busy[b.works[w].req := LocOf(w, pc)]))
  {
    var c := b.(works := b.works[w := b.works[w].(pc := pc)], busy := b.busy[b.works[w].req := LocOf(w, pc)]);
    assert WorkOk(b, w);
    forall v | v in c.works ensures WorkOk(c, v) { assert WorkOk(b, v); }
    forall a | a in c.agents ensures AgentOk(c, a) { AgentFrame(b, c, a); }
    forall q | q in c.busy ensures BusyOk(c, q) {
      if q != b.works[w].req { assert BusyOk(b, q) && b.busy[q] == c.busy[q]; }
    }
  }

  /** list_add_tail of a prepared request. */
  lemma OwnEnlist(b: Books, w: Work)
    requires Own(b) && w in b.works && b.works[w].pc == Ready
    ensures var r := b.works[w].req;
            Own(b.(works := b.works[w := Worker(r, Enlisted)], busy := b.busy[r := Listed(w)],
                inflight := b.inflight + [r]))
  {
    var r := b.works[w].req;
    var c := b.(works := b.works[w := Worker(r, Enlisted)], busy := b.busy[r := Listed(w)],
        inflight := b.inflight + [r]);
    assert WorkOk(b, w);
    assert r !in b.inflight;
    forall v | v in c.works ensures WorkOk(c, v) { assert WorkOk(b, v); }
    forall a | a in c.agents ensures AgentOk(c, a) { AgentFrame(b, c, a); }
    forall q | q in c.busy ensures BusyOk(c, q) { if q in b.busy { assert BusyOk(b, q); } }
  }

  /** A worker returns and its request leaves the driver: requeued or ended. */
  lemma OwnWorkerLeaves(b: Books, w: Work, inflight: seq<Req>)
    requires Own(b) && w in b.works
    requires || inflight == Without(b.inflight, b.works[w].req)
             || (inflight == b.inflight && !OnList(LocOf(w, b.works[w].pc)))
    ensures Own(b.(works := b.works - {w}, busy := b.busy - {b.works[w].req}, inflight := inflight))
  {
    var c := b.(works := b.works - {w}, busy := b.busy - {b.works[w].req}, inflight := inflight);
    assert WorkOk(b, w);
    WithoutDistinct(b.inflight, b.works[w].req);
    forall v | v in c.works ensures WorkOk(c, v) { assert WorkOk(b, v); }
    forall a | a in c.agents ensures AgentOk(c, a) { AgentFrame(b, c, a); }
    forall q | q in c.busy ensures BusyOk(c, q) { assert BusyOk(b, q); }
  }

  /** A worker returns after publishing: the request stays on the list, now without a worker. */
  lemma OwnPublish(b: Books, w: Work)
    requires Own(b) && w in b.works && b.works[w].pc == Enlisted
    ensures Own(b.(works := b.works - {w}, busy := b.busy[b.works[w].req := Published]))
  {
    var c := b.(works := b.works - {w}, busy := b.busy[b.works[w].req := Published]);
    assert WorkOk(b, w);
    forall v | v in c.works ensures WorkOk(c, v) { assert WorkOk(b, v); }
    forall a | a in c.agents ensures AgentOk(c, a) { AgentFrame(b, c, a); }
    forall q | q in c.busy ensures BusyOk(c, q) { if q in b.busy { assert BusyOk(b, q); } }
  }

  /** A completer takes a published request off the list. */
  lemma OwnFetch(b: Books, a: AgentId, r: Req, pc: Pc)
    requires Own(b) && a in b.agents && b.agents[a].pc.Took? && At(b, r, Published)
    requires pc == Storing(r) || pc == Working(r, false)
    ensures Own(b.(inflight := Without(b.inflight, r), busy := b.busy[r := Fetched(a)],
            agents := b.agents[a := b.agents[a].(pc := pc)]))
  {
    var c := b.(inflight := Without(b.inflight, r), busy := b.busy[r := Fetched(a)],
        agents := b.agents[a := b.agents[a].(pc := pc)]);
    assert AgentOk(b, a);
    WithoutDistinct(b.inflight, r);
    forall v | v in c.works ensures WorkOk(c, v) { assert WorkOk(b, v); }
    forall d | d in c.agents && d != a ensures AgentOk(c, d) { AgentFrame(b, c, d); }
    forall q | q in c.busy ensures BusyOk(c, q) {
      if q != r { assert BusyOk(b, q) && b.busy[q] == c.busy[q]; }
    }
  }

  /** An agent moves on without letting go of, or gaining, a request. */
  lemma OwnSetPc(b: Books, a: AgentId, pc: Pc)
    requires Own(b) && a in b.agents
    requires var was := b.agents[a].pc;
             || (was.Storing? && pc == Working(was.req, false))
             || (!Holding(was) && !Holding(pc) && (Flushing(was) <==> Flushing(pc))
                 && (pc.Took? ==> b.agents[a].kind.Completer?))
    ensures Own(b.(agents := b.agents[a := b.agents[a].(pc := pc)]))
  {
    var c := b.(agents := b.agents[a := b.agents[a].(pc := pc)]);
    assert AgentOk(b, a);
    forall v | v in c.works ensures WorkOk(c, v) { assert WorkOk(b, v); }
    forall d | d in c.agents ensures AgentOk(c, d) { assert AgentOk(b, d); }
    forall q | q in c.busy ensures BusyOk(c, q) { assert BusyOk(b, q); }
  }

  /** An agent sets DONE on the entry of the request in its hand. */
  lemma OwnMark(b: Books, a: AgentId, r: Req)
    requires Own(b) && a in b.agents && b.agents[a].pc == Working(r, false)
    ensures Own(b.(agents := b.agents[a := b.agents[a].(pc := Working(r, true))], busy := b.busy[r := Marked(a)]))
  {
    var c := b.(agents := b.agents[a := b.agents[a].(pc := Working(r, true))], busy := b.busy[r := Marked(a)]);
    assert AgentOk(b, a);
    forall v | v in c.works ensures WorkOk(c, v) { assert WorkOk(b, v); }
    forall d | d in c.agents && d != a ensures AgentOk(c, d) { AgentFrame(b, c, d); }
    forall q | q in c.busy ensures BusyOk(c, q) {
      if q != r { assert BusyOk(b, q) && b.busy[q] == c.busy[q]; }
    }
  }

  /** An agent ends the request in its hand. */
  lemma OwnEnd(b: Books, a: AgentId, r: Req)
    requires Own(b) && a in b.agents && b.agents[a].pc == Working(r, true)
    ensures Own(b.(agents := b.agents[a := b.agents[a].(pc := Advancing)], busy := b.busy - {r}))
  {
    var c := b.(agents := b.agents[a := b.agents[a].(pc := Advancing)], busy := b.busy - {r});
    assert AgentOk(b, a);
    forall v | v in c.works ensures WorkOk(c, v) { assert WorkOk(b, v); }
    forall d | d in c.agents && d != a ensures AgentOk(c, d) { AgentFrame(b, c, d); }
    forall q | q in c.busy ensures BusyOk(c, q) { assert BusyOk(b, q); }
  }

  lemma OwnArrive(b: Books, a: AgentId, ag: Agent)
    requires Own(b) && a !in b.agents && ag.tmp == []
    requires (ag.kind.Completer? && ag.pc.Loop?) || (ag.kind.Remover? && ag.pc.Entered?)
    ensures Own(b.(agents := b.agents[a := ag]))
  {
    var c := b.(agents := b.agents[a := ag]);
    forall v | v in c.works ensures WorkOk(c, v) { assert WorkOk(b, v); }
    forall d | d in c.agents ensures AgentOk(c, d) { if d != a { assert AgentOk(b, d); } }
    forall q | q in c.busy ensures BusyOk(c, q) { assert BusyOk(b, q); }
  }

  lemma OwnDepart(b: Books, a: AgentId)
    requires Own(b) && a in b.agents && b.agents[a].tmp == [] && !Holding(b.agents[a].pc)
    ensures Own(b.(agents := b.agents - {a}))
  {
    var c := b.(agents := b.agents - {a});
    forall v | v in c.works ensures WorkOk(c, v) { assert WorkOk(b, v); }
    forall d | d in c.agents ensures AgentOk(c, d) { assert AgentOk(b, d); }
    forall q | q in c.busy ensures BusyOk(c, q) { assert BusyOk(b, q); }
  }

  /** No worker stands between its status check and its return. */
  ghost predicate NoneActive(works: map<Work, Worker>) {
    forall w :: w in works ==> works[w].pc == Queued
  }

  /** With no worker active, everything on the list has been published. */
  lemma ListIsPublished(b: Books)
    requires Own(b) && NoneActive(b.works)
    ensures forall r :: r in b.inflight ==> At(b, r, Published)
  {
    forall r | r in b.inflight ensures At(b, r, Published) {
      assert BusyOk(b, r);
      assert b.busy[r].Listed? ==> WorkOk(b, b.busy[r].w);
    }
  }

  /** A forced removal moves the whole list to its own. */
  lemma OwnSplice(b: Books, a: AgentId)
    requires Own(b) && a in b.agents && b.agents[a] == Agent(Remover(true), Flushed, b.agents[a].tmp)
             && NoneActive(b.works)
    ensures Own(b.(agents := b.agents[a := b.agents[a].(pc := Loop, tmp := b.inflight)], inflight := [],
                   busy := map r | r in b.busy :: if r in b.inflight then Spliced(a) else b.busy[r]))
  {
    var c := b.(agents := b.agents[a := b.agents[a].(pc := Loop, tmp := b.inflight)], inflight := [],
                busy := map r | r in b.busy :: if r in b.inflight then Spliced(a) else b.busy[r]);
    assert AgentOk(b, a);
    ListIsPublished(b);
    forall v | v in c.works ensures WorkOk(c, v) { assert WorkOk(b, v); }
    forall d | d in c.agents ensures AgentOk(c, d) { assert AgentOk(b, d); }
    forall q | q in c.busy ensures BusyOk(c, q) { assert BusyOk(b, q); }
  }

  /** A forced removal takes the next request from its own list. */
  lemma OwnPop(b: Books, a: AgentId)
    requires Own(b) && a in b.agents && b.agents[a].pc.Loop? && b.agents[a].tmp != []
    ensures var ag := b.agents[a];
            Own(b.(agents := b.agents[a := ag.(pc := Working(ag.tmp[0], false), tmp := ag.tmp[1..])],
                busy := b.busy[ag.tmp[0] := Fetched(a)]))
  {
    var ag := b.agents[a];
    var c := b.(agents := b.agents[a := ag.(pc := Working(ag.tmp[0], false), tmp := ag.tmp[1..])],
        busy := b.busy[ag.tmp[0] := Fetched(a)]);
    assert AgentOk(b, a);
    assert ag.tmp[0] in ag.tmp && ag.tmp[0] !in ag.tmp[1..];
    assert forall r :: r in ag.tmp <==> r == ag.tmp[0] || r in ag.tmp[1..];
    forall v | v in c.works ensures WorkOk(c, v) { assert WorkOk(b, v); }
    forall d | d in c.agents && d != a ensures AgentOk(c, d) { AgentFrame(b, c, d); }
    forall q | q in c.busy ensures BusyOk(c, q) { if q in b.busy { assert BusyOk(b, q); } }
  }

  // ---------------------------------------------------------------- places

  predicate WithWorker(b: Books, r: Req, w: Work) { w in b.works && b.works[w].req == r }

  predicate InTmp(b: Books, r: Req, a: AgentId) { a in b.agents && r in b.agents[a].tmp }

  predicate InHand(b: Books, r: Req, a: AgentId) {
    a in b.agents && (b.agents[a].pc == Storing(r) || b.agents[a].pc == Working(r, true)
        || b.agents[a].pc == Working(r, false))
  }

  /** A request that is not started is nowhere in the driver. */
  lemma NotStartedIsNowhere(b: Books, r: Req)
    requires Own(b) && r !in b.busy
    ensures r !in b.inflight
    ensures forall w :: !WithWorker(b, r, w)
    ensures forall a :: !InTmp(b, r, a) && !InHand(b, r, a)
  {
    forall w ensures !WithWorker(b, r, w) { assert w in b.works ==> WorkOk(b, w); }
    forall a ensures !InTmp(b, r, a) && !InHand(b, r, a) { assert a in b.agents ==> AgentOk(b, a); }
  }

  /** Every place a request is in is the one history records. */
  lemma PlacesAgree(b: Books, r: Req)
    requires Own(b) && r in b.busy
    ensures forall w :: WithWorker(b, r, w) ==> Unpublished(b.busy[r]) && b.busy[r].w == w
    ensures forall a :: InTmp(b, r, a) ==> b.busy[r] == Spliced(a)
    ensures forall a :: InHand(b, r, a) ==> b.busy[r] == Fetched(a) || b.busy[r] == Marked(a)
    ensures r in b.inflight <==> OnList(b.busy[r])
  {
    forall w | WithWorker(b, r, w) ensures Unpublished(b.busy[r]) && b.busy[r].w == w { assert WorkOk(b, w); }
    forall a | InTmp(b, r, a) ensures b.busy[r] == Spliced(a) { assert AgentOk(b, a); }
    forall a | InHand(b, r, a) ensures b.busy[r] == Fetched(a) || b.busy[r] == Marked(a) { assert AgentOk(b, a); }
  }

  /** ... and it is in that place. */
  lemma PlaceIsTaken(b: Books, r: Req)
    requires Own(b) && r in b.busy
    ensures (exists w :: WithWorker(b, r, w)) || r in b.inflight || (exists a :: InTmp(b, r, a))
            || (exists a :: InHand(b, r, a))
  {
    assert BusyOk(b, r);
    match b.busy[r]
    case Published =>
    case Spliced(a) => assert InTmp(b, r, a);
    case Fetched(a) => assert InHand(b, r, a);
    case Marked(a) => assert InHand(b, r, a);
    case _ => assert WithWorker(b, r, b.busy[r].w);
  }

  /** With a worker, on the list, on a private list or in a hand; never in two of them, nor in one twice. */
  ghost predicate InOnePlace(b: Books, r: Req) {
    && ((exists w :: WithWorker(b, r, w)) || r in b.inflight || (exists a :: InTmp(b, r, a))
       || (exists a :: InHand(b, r, a)))
    && (forall w, w' :: WithWorker(b, r, w) && WithWorker(b, r, w') ==> w == w')
    && (forall a, a' :: InTmp(b, r, a) && InTmp(b, r, a') ==> a == a')
    && (forall a, a' :: InHand(b, r, a) && InHand(b, r, a') ==> a == a')
    && (forall a, a' :: !(InTmp(b, r, a) && InHand(b, r, a')))
    && (forall a, w :: InTmp(b, r, a) || InHand(b, r, a) ==> !WithWorker(b, r, w) && r !in b.inflight)
    && (forall i, j :: 0 <= i < j < |b.inflight| ==> b.inflight[i] != b.inflight[j])
  }

  lemma OnePlace(b: Books, r: Req)
    requires Own(b) && r in b.busy
    ensures InOnePlace(b, r)
  {
    PlacesAgree(b, r);
    PlaceIsTaken(b, r);
  }
}
