/** Every action keeps the queue's invariant, so every run does; what follows from it is in QueueTheorems. */
module QueueProof {
  import Ring
  import Pool
  import opened Queue
  import opened QueueOwnership
  import opened QueueTids
  import opened QueueGates

  // ---------------------------------------------------------------- pages and requests

  /** Which phases of a request go with which phases of its page holder. */
  predicate Fits(loc: Loc, mode: Pool.Mode) {
    match loc
    case Pending(_) => false
    case Preparing(_) => mode != Pool.Freeing
    case Marked(_) => mode == Pool.Held || mode == Pool.Freeing
    case _ => mode == Pool.Held
  }

  predicate MustHold(loc: Loc) { Live(loc) || loc.Prepared? || loc.Listed? }

  ghost predicate LinkOk(holders: map<Req, Pool.Holder>, busy: map<Req, Loc>, r: Req) {
    && (r in holders ==> r in busy && Fits(busy[r], holders[r].mode))
    && (r in busy && MustHold(busy[r]) ==> r in holders)
  }

  ghost predicate Link(holders: map<Req, Pool.Holder>, busy: map<Req, Loc>) {
    forall r :: LinkOk(holders, busy, r)
  }

  ghost predicate Linked(s: State) { Link(s.pool.holders, s.busy) }

  // ---------------------------------------------------------------- bookkeeping

  /** How often each request was started, ended and requeued, and which ones are started now. */
  datatype Tally = Tally(starts: map<Req, nat>, ends: map<Req, nat>, requeues: map<Req, nat>, busy: set<Req>)

  function TallyOf(s: State): Tally { Tally(s.starts, s.ends, s.requeues, s.busy.Keys) }

  ghost predicate BalancedFor(t: Tally, r: Req) {
    Count(t.starts, r) == Count(t.ends, r) + Count(t.requeues, r) + (if r in t.busy then 1 else 0)
  }

  /** Every start is matched by one end or one requeue, except that of a request still started. */
  ghost predicate Balanced(t: Tally) {
    forall r :: BalancedFor(t, r)
  }

  /** Every publication has been notified, except those of workers about to do so. */
  ghost predicate Notified(s: State) {
    && s.ring.tid == s.events + |s.notifying|
    && forall w :: w in s.notifying ==> w < s.nextWork && w !in s.works
  }

  /** Tid 0 never reaches a completer. */
  ghost predicate Posted(s: State) {
    && (forall i :: 0 <= i < |s.cq| ==> 0 < s.cq[i])
    && (forall a :: a in s.agents && s.agents[a].pc.Took? ==> 0 < s.agents[a].pc.tid)
  }

  /** A preparation is for as many pages as its request has segments. */
  ghost predicate WantsSegments(holders: map<Req, Pool.Holder>, pdu: map<Req, Pdu>) {
    forall r :: r in holders ==> holders[r].want == PduOf(pdu, r).segs
  }

  ghost predicate Wanting(s: State) { WantsSegments(s.pool.holders, s.pdu) }

  ghost predicate Good(s: State) {
    && s.g.Ok()
    && Ring.Valid(s.g, s.ring)
    && Pool.Inv(s.pool)
    && Own(BooksOf(s))
    && Tids(RegistryOf(s))
    && Gates(GateOf(s))
    && Linked(s)
    && Wanting(s)
    && Balanced(TallyOf(s))
    && Notified(s)
    && Posted(s)
  }

  // ---------------------------------------------------------------- ownership

  lemma OwnCheckStep(s: State, w: Work)
    requires Own(BooksOf(s)) && WorkAt(s, w, Queued)
    ensures Own(BooksOf(DoCheck(s, w)))
  {
    if s.status == Running { OwnPhase(BooksOf(s), w, Filling); } else { OwnWorkerLeaves(BooksOf(s), w, s.inflight); }
  }

  lemma OwnRequeueStep(s: State, w: Work)
    requires Own(BooksOf(s)) && WorkAt(s, w, Filling)
    ensures Own(BooksOf(Requeue(s, w)))
  {
    OwnWorkerLeaves(BooksOf(s), w, s.inflight);
  }

  lemma OwnFillDoneStep(s: State, w: Work)
    requires Own(BooksOf(s)) && WorkAt(s, w, Filling)
    ensures Own(BooksOf(SetWork(s, w, Ready, Prepared(w))))
  {
    OwnPhase(BooksOf(s), w, Ready);
  }

  lemma OwnEnlistStep(s: State, w: Work)
    requires Own(BooksOf(s)) && WorkAt(s, w, Ready)
    ensures Own(BooksOf(DoEnlist(s, w)))
  {
    OwnEnlist(BooksOf(s), w);
  }

  lemma OwnPublishStep(s: State, w: Work, cmd: nat)
    requires s.g.Ok() && Own(BooksOf(s)) && WorkAt(s, w, Enlisted)
    ensures Own(BooksOf(DoPublish(s, w, cmd)))
  {
    var b := BooksOf(s);
    assert WorkOk(b, w);
    if Ring.SpaceEnough(s.g, s.ring.head, s.ring.tail, cmd) {
      OwnPublish(b, w);
    } else {
      assert s.busy == s.busy[s.works[w].req := Listed(w)];
      OwnPhase(b, w, RingFull);
    }
  }

  lemma OwnUnlistStep(s: State, w: Work)
    requires Own(BooksOf(s)) && WorkAt(s, w, RingFull)
    ensures Own(BooksOf(DoUnlist(s, w)))
  {
    OwnWorkerLeaves(BooksOf(s), w, Without(s.inflight, s.works[w].req));
  }

  lemma OwnWorker(s: State, w: Work, step: WorkerStep)
    requires s.g.Ok() && Own(BooksOf(s)) && WorkerCan(s, w, step)
    ensures Own(BooksOf(WorkerNext(s, w, step)))
  {
    match step
    case Check => OwnCheckStep(s, w);
    case PiFail => OwnRequeueStep(s, w);
    case Fill(_) =>
    case FillFailed => OwnRequeueStep(s, w);
    case FillDone => OwnFillDoneStep(s, w);
    case Enlist => OwnEnlistStep(s, w);
    case Publish(cmd) => OwnPublishStep(s, w, cmd);
    case Unlist => OwnUnlistStep(s, w);
    case Notify =>
  }

  lemma OwnCompleter(s: State, a: AgentId, step: CompleterStep)
    requires Own(BooksOf(s)) && Tids(RegistryOf(s)) && Posted(s) && CompleterCan(s, a, step)
    ensures Own(BooksOf(CompleterNext(s, a, step)))
  {
    var b := BooksOf(s);
    match step
    case Take => OwnSetPc(b, a, Took(s.cq[0]));
    case Fetch => OwnFetchStep(s, a);
    case Store => OwnSetPc(b, a, Working(s.agents[a].pc.req, false));
    case Mark => OwnMark(b, a, s.agents[a].pc.req);
    case FreePages(_) =>
    case End => OwnEnd(b, a, s.agents[a].pc.req);
    case Advance => OwnSetPc(b, a, Loop);
    case Exit => assert AgentOk(b, a); OwnDepart(b, a);
  }

  /** A completion names a published request: an unpublished one on the list still has tid 0. */
  lemma FetchFindsPublished(s: State, tid: nat)
    requires Own(BooksOf(s)) && Tids(RegistryOf(s)) && 0 < tid
    ensures var f := Find(s.inflight, s.pdu, tid);
            f.Some? ==> At(BooksOf(s), f.value, Published) && tid in s.pub && s.pub[tid] == f.value
  {
    var f := Find(s.inflight, s.pdu, tid);
    if f.Some? { assert ReqOk(RegistryOf(s), f.value); }
  }

  lemma OwnTakeOff(s: State, a: AgentId, r: Req, rest: seq<Req>)
    requires Own(BooksOf(s)) && a in s.agents && s.agents[a].pc.Took? && At(BooksOf(s), r, Published)
    requires rest == Without(s.inflight, r)
    ensures Own(BooksOf(TakeOff(s, a, r, rest)))
  {
    var b := BooksOf(s);
    var pc := if s.status == Stopping && rest == [] then Storing(r) else Working(r, false);
    assert BooksOf(TakeOff(s, a, r, rest))
        == b.(inflight := rest, busy := b.busy[r := Fetched(a)], agents := b.agents[a := b.agents[a].(pc := pc)]);
    OwnFetch(b, a, r, pc);
  }

  lemma OwnFetchStep(s: State, a: AgentId)
    requires Own(BooksOf(s)) && Tids(RegistryOf(s)) && Posted(s) && a in s.agents && s.agents[a].pc.Took?
    ensures Own(BooksOf(DoFetch(s, a)))
  {
    var f := Find(s.inflight, s.pdu, s.agents[a].pc.tid);
    FetchFindsPublished(s, s.agents[a].pc.tid);
    if f.None? {
      OwnSetPc(BooksOf(s), a, Loop);
    } else {
      OwnTakeOff(s, a, f.value, Without(s.inflight, f.value));
    }
  }

  lemma OwnRemover(s: State, a: AgentId, step: RemoverStep)
    requires Own(BooksOf(s)) && Gates(GateOf(s)) && RemoverCan(s, a, step)
    ensures Own(BooksOf(RemoverNext(s, a, step)))
  {
    var b := BooksOf(s);
    match step
    case Flush => OwnSetPc(b, a, FlushWait(s.nextWork));
    case FlushDone => OwnSetPc(b, a, Flushed);
    case Splice => assert AgentGate(GateOf(s), a); OwnSplice(b, a);
    case Pop => OwnPop(b, a);
  }

  lemma OwnQueueRqStep(s: State, r: Req, op: Ring.Op, segs: nat)
    requires Own(BooksOf(s)) && r !in s.busy
    ensures Own(BooksOf(DoQueueRq(s, r, op, segs)))
  {
    var b := BooksOf(s);
    OwnStart(b, r);
    assert BooksOf(DoQueueRq(s, r, op, segs))
        == b.(works := b.works[b.nextWork := Worker(r, Queued)], nextWork := b.nextWork + 1,
            busy := b.busy[r := Pending(b.nextWork)]);
  }

  lemma OwnRemoveStep(s: State, a: AgentId, force: bool)
    requires Own(BooksOf(s)) && a !in s.agents
    ensures Own(BooksOf(DoRemove(s, a, force)))
  {
    OwnArrive(BooksOf(s), a, Agent(Remover(force), Entered, []));
  }

  lemma OwnOutside(s: State, step: OutsideStep)
    requires Own(BooksOf(s)) && OutsideCan(s, step)
    ensures Own(BooksOf(OutsideNext(s, step)))
  {
    match step
    case QueueRq(r, op, segs) => OwnQueueRqStep(s, r, op, segs);
    case Enter(a) => OwnArrive(BooksOf(s), a, Agent(Completer, Loop, []));
    case Remove(a, force) => OwnRemoveStep(s, a, force);
    case _ =>
  }

  // ---------------------------------------------------------------- what ownership says about one actor

  /** The request of worker `w` is where the worker's program counter says. */
  ghost predicate WorkerFact(s: State, w: Work) {
    w in s.works ==> w < s.nextWork && s.works[w].req in s.busy && s.busy[s.works[w].req] == LocOf(w, s.works[w].pc)
  }

  ghost predicate AgentFact(s: State, a: AgentId) {
    a in s.agents ==> AgentOk(BooksOf(s), a)
  }

  ghost predicate WorksBelow(s: State) {
    forall w :: w in s.works ==> w < s.nextWork
  }

  /** What a completer at Took will find on the list has been published. */
  ghost predicate FetchFact(s: State, a: AgentId) {
    a in s.agents && s.agents[a].pc.Took? ==>
      var f := Find(s.inflight, s.pdu, s.agents[a].pc.tid);
      f.Some? ==> f.value in s.busy && s.busy[f.value] == Published
  }

  lemma OwnFacts(s: State, w: Work, a: AgentId)
    requires Own(BooksOf(s))
    ensures WorkerFact(s, w) && AgentFact(s, a) && WorksBelow(s)
  {
    var b := BooksOf(s);
    if w in s.works { assert WorkOk(b, w); }
    forall v | v in s.works ensures v < s.nextWork { assert WorkOk(b, v); }
  }

  lemma FetchFacts(s: State, a: AgentId)
    requires Own(BooksOf(s)) && Tids(RegistryOf(s)) && Posted(s)
    ensures FetchFact(s, a)
  {
    if a in s.agents && s.agents[a].pc.Took? { FetchFindsPublished(s, s.agents[a].pc.tid); }
  }

  /** A flushed removal finds only published requests on the list. */
  lemma SpliceFacts(s: State, a: AgentId)
    requires Own(BooksOf(s)) && Gates(GateOf(s)) && AgentAt(s, a, Flushed) && s.agents[a].kind == Remover(true)
    ensures NoneActive(s.works)
    ensures forall r :: r in s.inflight ==> r in s.busy && s.busy[r] == Published
  {
    assert AgentGate(GateOf(s), a);
    ListIsPublished(BooksOf(s));
  }

  // ---------------------------------------------------------------- tids

  lemma TidsPhase(s: State, w: Work, loc: Loc)
    requires Tids(RegistryOf(s)) && w in s.works && WorkerFact(s, w) && Unpublished(loc)
    ensures Tids(RegistryOf(s).(busy := s.busy[s.works[w].req := loc]))
  {
    TidsMove(RegistryOf(s), s.busy[s.works[w].req := loc]);
  }

  lemma TidsLeave(s: State, w: Work)
    requires Tids(RegistryOf(s)) && w in s.works && WorkerFact(s, w)
    ensures Tids(RegistryOf(s).(busy := s.busy - {s.works[w].req}))
  {
    TidsMove(RegistryOf(s), s.busy - {s.works[w].req});
  }

  lemma TidsCheckStep(s: State, w: Work)
    requires Tids(RegistryOf(s)) && w in s.works && WorkerFact(s, w)
    ensures Tids(RegistryOf(DoCheck(s, w)))
  {
    if s.status == Running {
      assert RegistryOf(DoCheck(s, w)) == RegistryOf(s).(busy := s.busy[s.works[w].req := Preparing(w)]);
      TidsPhase(s, w, Preparing(w));
    } else {
      assert RegistryOf(DoCheck(s, w)) == RegistryOf(s).(busy := s.busy - {s.works[w].req});
      TidsLeave(s, w);
    }
  }

  lemma TidsPublishStep(s: State, w: Work, cmd: nat)
    requires s.g.Ok() && Ring.Valid(s.g, s.ring) && Tids(RegistryOf(s)) && w in s.works && WorkerFact(s, w)
             && Ring.CmdOk(s.g, cmd)
    ensures Tids(RegistryOf(DoPublish(s, w, cmd)))
  {
    if Ring.SpaceEnough(s.g, s.ring.head, s.ring.tail, cmd) {
      TidsPublish(s.g, RegistryOf(s), s.works[w].req, cmd);
    } else {
      assert RegistryOf(DoPublish(s, w, cmd)) == RegistryOf(s);
    }
  }

  lemma TidsWorker(s: State, w: Work, step: WorkerStep)
    requires s.g.Ok() && Ring.Valid(s.g, s.ring) && WorkerFact(s, w) && Tids(RegistryOf(s)) && WorkerCan(s, w, step)
    ensures Tids(RegistryOf(WorkerNext(s, w, step)))
  {
    match step
    case Check => TidsCheckStep(s, w);
    case PiFail => TidsLeave(s, w);
    case Fill(_) =>
    case FillFailed => TidsLeave(s, w);
    case FillDone => TidsPhase(s, w, Prepared(w));
    case Enlist => TidsPhase(s, w, Listed(w));
    case Publish(cmd) => TidsPublishStep(s, w, cmd);
    case Unlist => TidsLeave(s, w);
    case Notify =>
  }

  lemma TidsTakeOff(s: State, a: AgentId, r: Req, rest: seq<Req>)
    requires Tids(RegistryOf(s)) && a in s.agents && r in s.busy && s.busy[r] == Published
    ensures Tids(RegistryOf(TakeOff(s, a, r, rest)))
  {
    assert RegistryOf(TakeOff(s, a, r, rest)) == RegistryOf(s).(busy := s.busy[r := Fetched(a)]);
    TidsMove(RegistryOf(s), s.busy[r := Fetched(a)]);
  }

  lemma TidsFetchStep(s: State, a: AgentId)
    requires Tids(RegistryOf(s)) && FetchFact(s, a) && a in s.agents && s.agents[a].pc.Took?
    ensures Tids(RegistryOf(DoFetch(s, a)))
  {
    var f := Find(s.inflight, s.pdu, s.agents[a].pc.tid);
    if f.None? {
      assert RegistryOf(DoFetch(s, a)) == RegistryOf(s);
    } else {
      TidsTakeOff(s, a, f.value, Without(s.inflight, f.value));
    }
  }

  lemma TidsMarkStep(s: State, a: AgentId)
    requires s.g.Ok() && Ring.Valid(s.g, s.ring) && AgentFact(s, a) && Tids(RegistryOf(s)) && IsWorking(s, a, false)
    ensures Tids(RegistryOf(DoMark(s, a)))
  {
    TidsMark(s.g, RegistryOf(s), s.agents[a].pc.req, a);
  }

  lemma TidsEndStep(s: State, a: AgentId)
    requires AgentFact(s, a) && Tids(RegistryOf(s)) && IsWorking(s, a, true)
    ensures Tids(RegistryOf(DoEnd(s, a)))
  {
    assert RegistryOf(DoEnd(s, a)) == RegistryOf(s).(busy := s.busy - {s.agents[a].pc.req});
    TidsMove(RegistryOf(s), s.busy - {s.agents[a].pc.req});
  }

  lemma TidsCompleter(s: State, a: AgentId, step: CompleterStep)
    requires s.g.Ok() && Ring.Valid(s.g, s.ring) && AgentFact(s, a) && FetchFact(s, a) && Tids(RegistryOf(s))
             && CompleterCan(s, a, step)
    ensures Tids(RegistryOf(CompleterNext(s, a, step)))
  {
    match step
    case Fetch => TidsFetchStep(s, a);
    case Mark => TidsMarkStep(s, a);
    case End => TidsEndStep(s, a);
    case Advance => TidsAdvance(RegistryOf(s));
    case _ => assert RegistryOf(CompleterNext(s, a, step)) == RegistryOf(s);
  }

  lemma TidsSpliceStep(s: State, a: AgentId)
    requires Tids(RegistryOf(s)) && a in s.agents
    requires forall r :: r in s.inflight ==> r in s.busy && s.busy[r] == Published
    ensures Tids(RegistryOf(DoSplice(s, a)))
  {
    var busy := DoSplice(s, a).busy;
    assert RegistryOf(DoSplice(s, a)) == RegistryOf(s).(busy := busy);
    TidsMove(RegistryOf(s), busy);
  }

  lemma TidsPopStep(s: State, a: AgentId)
    requires Tids(RegistryOf(s)) && AgentFact(s, a) && a in s.agents && s.agents[a].tmp != []
    ensures Tids(RegistryOf(DoPop(s, a)))
  {
    var r := s.agents[a].tmp[0];
    assert r in s.agents[a].tmp;
    assert RegistryOf(DoPop(s, a)) == RegistryOf(s).(busy := s.busy[r := Fetched(a)]);
    TidsMove(RegistryOf(s), s.busy[r := Fetched(a)]);
  }

  lemma TidsRemover(s: State, a: AgentId, step: RemoverStep)
    requires Own(BooksOf(s)) && Tids(RegistryOf(s)) && Gates(GateOf(s)) && RemoverCan(s, a, step)
    ensures Tids(RegistryOf(RemoverNext(s, a, step)))
  {
    match step
    case Flush => assert RegistryOf(RemoverNext(s, a, step)) == RegistryOf(s);
    case FlushDone => assert RegistryOf(RemoverNext(s, a, step)) == RegistryOf(s);
    case Splice => SpliceFacts(s, a); TidsSpliceStep(s, a);
    case Pop => OwnFacts(s, 0, a); TidsPopStep(s, a);
  }

  lemma TidsOutside(s: State, step: OutsideStep)
    requires s.g.Ok() && Ring.Valid(s.g, s.ring) && Tids(RegistryOf(s)) && OutsideCan(s, step)
    ensures Tids(RegistryOf(OutsideNext(s, step)))
  {
    match step
    case QueueRq(r, op, segs) => TidsStart(RegistryOf(s), r, op, segs, s.nextWork);
    case PadDone(pos) =>
      var k: nat :| k < |s.ring.entries| && s.ring.entries[k].pos == pos && s.ring.entries[k].op.Pad?;
      TidsPad(s.g, RegistryOf(s), k);
    case _ => assert RegistryOf(OutsideNext(s, step)) == RegistryOf(s);
  }

  // ---------------------------------------------------------------- gates

  lemma GatesCheckStep(s: State, w: Work)
    requires Gates(GateOf(s)) && w in s.works
    ensures Gates(GateOf(DoCheck(s, w)))
  {
    var b := GateOf(s);
    if s.status == Running {
      var works := s.works[w := s.works[w].(pc := Filling)];
      assert GateOf(DoCheck(s, w)) == b.(works := works);
      GatesAdmit(b, works);
    } else {
      assert GateOf(DoCheck(s, w)) == b.(works := s.works - {w});
      GatesWorks(b, s.works - {w});
    }
  }

  lemma GatesReturn(s: State, w: Work, inflight: seq<Req>)
    requires Gates(GateOf(s)) && w in s.works && s.works[w].pc != Queued
    requires s.lock.Some? ==> inflight == s.inflight
    ensures Gates(GateOf(s).(works := s.works - {w}, inflight := inflight))
  {
    GatesList(GateOf(s), w, s.works - {w}, inflight);
  }

  lemma GatesPhase(s: State, w: Work, worker: Worker, inflight: seq<Req>)
    requires Gates(GateOf(s)) && w in s.works && s.works[w].pc != Queued
    requires s.lock.Some? ==> inflight == s.inflight
    ensures Gates(GateOf(s).(works := s.works[w := worker], inflight := inflight))
  {
    GatesList(GateOf(s), w, s.works[w := worker], inflight);
  }

  lemma GatesPublishAt(s: State, w: Work, v: Ring.View, se: nat)
    requires Gates(GateOf(s)) && WorkAt(s, w, Enlisted)
    ensures Gates(GateOf(PublishAt(s, w, v, se)))
  {
    assert GateOf(PublishAt(s, w, v, se)) == GateOf(s).(works := s.works - {w}, inflight := s.inflight);
    GatesReturn(s, w, s.inflight);
  }

  lemma GatesPublishStep(s: State, w: Work, cmd: nat)
    requires s.g.Ok() && Gates(GateOf(s)) && WorkAt(s, w, Enlisted)
    ensures Gates(GateOf(DoPublish(s, w, cmd)))
  {
    var r := s.works[w].req;
    if Ring.SpaceEnough(s.g, s.ring.head, s.ring.tail, cmd) {
      var v := Ring.Submit(s.g, s.ring, cmd, PduOf(s.pdu, r).op);
      GatesPublishAt(s, w, v, v.entries[|v.entries| - 1].pos);
    } else {
      GatesPhase(s, w, Worker(r, RingFull), s.inflight);
    }
  }

  lemma GatesEnlistStep(s: State, w: Work)
    requires Gates(GateOf(s)) && WorkAt(s, w, Ready) && s.lock.None?
    ensures Gates(GateOf(DoEnlist(s, w)))
  {
    var r := s.works[w].req;
    assert GateOf(DoEnlist(s, w)) == GateOf(s).(works := s.works[w := Worker(r, Enlisted)],
        inflight := s.inflight + [r]);
    GatesPhase(s, w, Worker(r, Enlisted), s.inflight + [r]);
  }

  lemma GatesRequeueStep(s: State, w: Work)
    requires Gates(GateOf(s)) && w in s.works && s.works[w].pc != Queued
    ensures Gates(GateOf(Requeue(s, w)))
  {
    assert GateOf(Requeue(s, w)) == GateOf(s).(works := s.works - {w}, inflight := s.inflight);
    GatesReturn(s, w, s.inflight);
  }

  lemma GatesUnlistStep(s: State, w: Work)
    requires Gates(GateOf(s)) && w in s.works && s.works[w].pc != Queued && s.lock.None?
    ensures Gates(GateOf(DoUnlist(s, w)))
  {
    var rest := Without(s.inflight, s.works[w].req);
    assert GateOf(DoUnlist(s, w)) == GateOf(s).(works := s.works - {w}, inflight := rest);
    GatesReturn(s, w, rest);
  }

  lemma GatesFillDoneStep(s: State, w: Work)
    requires Gates(GateOf(s)) && WorkAt(s, w, Filling)
    ensures Gates(GateOf(SetWork(s, w, Ready, Prepared(w))))
  {
    assert GateOf(SetWork(s, w, Ready, Prepared(w))) == GateOf(s).(works := s.works[w := Worker(s.works[w].req, Ready)],
        inflight := s.inflight);
    GatesPhase(s, w, Worker(s.works[w].req, Ready), s.inflight);
  }

  lemma GatesWorker(s: State, w: Work, step: WorkerStep)
    requires s.g.Ok() && Gates(GateOf(s)) && WorkerCan(s, w, step)
    ensures Gates(GateOf(WorkerNext(s, w, step)))
  {
    match step
    case Check => GatesCheckStep(s, w);
    case PiFail => GatesRequeueStep(s, w);
    case Fill(_) => assert GateOf(WorkerNext(s, w, step)) == GateOf(s);
    case FillFailed =>
      assert GateOf(WorkerNext(s, w, step)) == GateOf(Requeue(s, w));
      GatesRequeueStep(s, w);
    case FillDone => GatesFillDoneStep(s, w);
    case Enlist => GatesEnlistStep(s, w);
    case Publish(cmd) => GatesPublishStep(s, w, cmd);
    case Unlist => GatesUnlistStep(s, w);
    case Notify => assert GateOf(WorkerNext(s, w, step)) == GateOf(s);
  }

  lemma GatesTakeOff(s: State, a: AgentId, r: Req)
    requires Gates(GateOf(s)) && a in s.agents && s.agents[a].kind.Completer? && s.agents[a].pc.Took? && s.lock.None?
    ensures Gates(GateOf(TakeOff(s, a, r, Without(s.inflight, r))))
  {
    var b := GateOf(s);
    var rest := Without(s.inflight, r);
    var t := TakeOff(s, a, r, rest);
    if s.status == Stopping && rest == [] {
      assert GateOf(t) == b.(inflight := rest, lock := Pool.Some(a),
          agents := b.agents[a := b.agents[a].(pc := Storing(r))]);
    } else {
      assert GateOf(t) == b.(inflight := rest, agents := b.agents[a := b.agents[a].(pc := Working(r, false))]);
    }
    GatesFetch(b, a, r, rest);
  }

  lemma GatesFetchStep(s: State, a: AgentId)
    requires AgentFact(s, a) && Gates(GateOf(s)) && a in s.agents && s.agents[a].pc.Took? && s.lock.None?
    ensures Gates(GateOf(DoFetch(s, a)))
  {
    var f := Find(s.inflight, s.pdu, s.agents[a].pc.tid);
    if f.None? {
      GatesPc(GateOf(s), a, s.agents[a].(pc := Loop));
    } else {
      GatesTakeOff(s, a, f.value);
    }
  }

  /** Steps in which an agent only changes its own record, and not at Storing or before the end of a flush. */
  lemma GatesAgentStep(s: State, t: State, a: AgentId, ag: Agent)
    requires Gates(GateOf(s)) && a in s.agents
    requires GateOf(t) == GateOf(s).(agents := s.agents[a := ag])
    requires ag.kind == s.agents[a].kind
    requires !s.agents[a].pc.Storing? && !ag.pc.Storing? && !s.agents[a].pc.Entered? && !s.agents[a].pc.FlushWait?
    ensures Gates(GateOf(t))
  {
    assert AgentGate(GateOf(s), a);
    GatesPc(GateOf(s), a, ag);
  }

  lemma GatesCompleter(s: State, a: AgentId, step: CompleterStep)
    requires AgentFact(s, a) && Gates(GateOf(s)) && CompleterCan(s, a, step)
    ensures Gates(GateOf(CompleterNext(s, a, step)))
  {
    var t := CompleterNext(s, a, step);
    match step
    case Take => GatesAgentStep(s, t, a, s.agents[a].(pc := Took(s.cq[0])));
    case Fetch => GatesFetchStep(s, a);
    case Store => GatesStore(GateOf(s), a);
    case Mark => GatesAgentStep(s, t, a, s.agents[a].(pc := Working(s.agents[a].pc.req, true)));
    case FreePages(_) => assert GateOf(t) == GateOf(s);
    case End => GatesAgentStep(s, t, a, s.agents[a].(pc := Advancing));
    case Advance => GatesAgentStep(s, t, a, s.agents[a].(pc := Loop));
    case Exit => GatesDepart(GateOf(s), a);
  }

  lemma GatesFlushStep(s: State, a: AgentId)
    requires WorksBelow(s) && Gates(GateOf(s)) && AgentAt(s, a, Entered)
    ensures Gates(GateOf(SetPc(s, a, FlushWait(s.nextWork))))
  {
    GatesPc(GateOf(s), a, s.agents[a].(pc := FlushWait(s.nextWork)));
  }

  lemma FlushedIsQuiet(s: State, a: AgentId)
    requires Gates(GateOf(s)) && a in s.agents && s.agents[a].kind == Remover(true)
    requires s.agents[a].pc.FlushWait? && Drained(s, s.agents[a].pc.limit)
    ensures NoneActive(s.works)
  {
    assert AgentGate(GateOf(s), a);
    FlushLeavesNoneActive(s, s.agents[a].pc.limit);
  }

  lemma GatesFlushDoneStep(s: State, a: AgentId)
    requires Gates(GateOf(s)) && a in s.agents && s.agents[a].pc.FlushWait?
    requires s.agents[a].kind == Remover(true) ==> NoneActive(s.works)
    ensures Gates(GateOf(SetPc(s, a, Flushed)))
  {
    var ag := s.agents[a].(pc := Flushed);
    assert GateOf(SetPc(s, a, Flushed)) == GateOf(s).(agents := s.agents[a := ag]);
    GatesPc(GateOf(s), a, ag);
  }

  lemma GatesRemover(s: State, a: AgentId, step: RemoverStep)
    requires WorksBelow(s) && AgentFact(s, a) && Gates(GateOf(s)) && RemoverCan(s, a, step)
    ensures Gates(GateOf(RemoverNext(s, a, step)))
  {
    match step
    case Flush => GatesFlushStep(s, a);
    case FlushDone =>
      if s.agents[a].kind == Remover(true) { FlushedIsQuiet(s, a); }
      GatesFlushDoneStep(s, a);
    case Splice =>
      var ag := s.agents[a].(pc := Loop, tmp := s.inflight);
      assert GateOf(DoSplice(s, a)) == GateOf(s).(agents := s.agents[a := ag], inflight := [], sealed := true);
      GatesSplice(GateOf(s), a, ag);
    case Pop =>
      var tmp := s.agents[a].tmp;
      GatesAgentStep(s, DoPop(s, a), a, s.agents[a].(pc := Working(tmp[0], false), tmp := tmp[1..]));
  }

  lemma GatesControl(s: State, step: ControlStep)
    requires WorksBelow(s) && Gates(GateOf(s)) && ControlCan(s, step)
    ensures Gates(GateOf(ControlNext(s, step)))
  {
    var b := GateOf(s);
    var t := ControlNext(s, step);
    assert GateOf(t) == b.(status := t.status, stopper := t.stopper);
    if step.StopFlushDone? { FlushLeavesNoneActive(s, s.stopper.limit); }
    GatesStatus(b, t.status, t.stopper);
  }

  lemma GatesOutside(s: State, step: OutsideStep)
    requires Gates(GateOf(s)) && OutsideCan(s, step) && !OutsideNext(s, step).raced
    ensures Gates(GateOf(OutsideNext(s, step)))
  {
    match step
    case QueueRq(r, op, segs) =>
      assert GateOf(DoQueueRq(s, r, op, segs)) == GateOf(s).(works := s.works[s.nextWork := Worker(r, Queued)]);
      GatesWorks(GateOf(s), s.works[s.nextWork := Worker(r, Queued)]);
    case Enter(a) => GatesArrive(GateOf(s), a);
    case Remove(a, force) =>
      assert GateOf(DoRemove(s, a, force)) == GateOf(s).(status := Removing,
          agents := s.agents[a := Agent(Remover(force), Entered, [])]);
      GatesRemove(GateOf(s), a, force);
    case _ => assert GateOf(OutsideNext(s, step)) == GateOf(s);
  }

  // ---------------------------------------------------------------- pages held by requests

  lemma LinkMove(holders: map<Req, Pool.Holder>, busy: map<Req, Loc>, r: Req, loc: Loc)
    requires Link(holders, busy)
    requires if r in holders then Fits(loc, holders[r].mode) else !MustHold(loc)
    ensures Link(holders, busy[r := loc])
  {
    var now := busy[r := loc];
    forall q ensures LinkOk(holders, now, q) { assert LinkOk(holders, busy, q); }
  }

  lemma LinkLeave(holders: map<Req, Pool.Holder>, busy: map<Req, Loc>, r: Req)
    requires Link(holders, busy)
    ensures Link(holders - {r}, busy - {r})
    ensures r !in holders ==> Link(holders, busy - {r})
  {
    var holders', busy' := holders - {r}, busy - {r};
    forall q ensures LinkOk(holders', busy', q) { assert LinkOk(holders, busy, q); }
    if r !in holders { assert holders - {r} == holders; }
  }

  lemma LinkHolder(holders: map<Req, Pool.Holder>, busy: map<Req, Loc>, r: Req, h: Pool.Holder)
    requires Link(holders, busy) && r in busy && Fits(busy[r], h.mode)
    ensures Link(holders[r := h], busy)
  {
    var now := holders[r := h];
    forall q ensures LinkOk(now, busy, q) { assert LinkOk(holders, busy, q); }
  }

  lemma LinkForget(holders: map<Req, Pool.Holder>, busy: map<Req, Loc>, r: Req)
    requires Link(holders, busy) && r in busy && !MustHold(busy[r])
    ensures Link(holders - {r}, busy)
  {
    var now := holders - {r};
    forall q ensures LinkOk(now, busy, q) { assert LinkOk(holders, busy, q); }
  }

  /** Inside ubbd_get_data_pages a pool step changes the calling request's holder only. */
  lemma FillTouchesOne(p: Pool.State, step: Pool.Action)
    requires FillStep(step) && Pool.Enabled(p, step)
    ensures var q := Pool.Next(p, step);
            step.id in q.holders && q.holders == p.holders[step.id := q.holders[step.id]]
            && (q.holders[step.id].mode != Pool.Freeing)
  {
  }

  lemma LinkReturn(s: State, w: Work)
    requires Linked(s) && w in s.works && s.works[w].req !in s.pool.holders
    ensures Linked(Requeue(s, w)) && Linked(Refuse(s, w))
  {
    LinkLeave(s.pool.holders, s.busy, s.works[w].req);
  }

  lemma LinkCheckStep(s: State, w: Work)
    requires WorkerFact(s, w) && Linked(s) && WorkAt(s, w, Queued)
    ensures Linked(DoCheck(s, w))
  {
    assert LinkOk(s.pool.holders, s.busy, s.works[w].req);
    if s.status == Running {
      LinkPhaseStep(s, w, Filling, Preparing(w));
    } else {
      LinkReturn(s, w);
    }
  }

  lemma LinkFillStep(s: State, w: Work, p: Pool.Action)
    requires WorkerFact(s, w) && Linked(s) && WorkAt(s, w, Filling) && FillStep(p) && p.id == s.works[w].req
             && Pool.Enabled(s.pool, p)
    ensures Link(Pool.Next(s.pool, p).holders, s.busy)
  {
    FillTouchesOne(s.pool, p);
    LinkHolder(s.pool.holders, s.busy, p.id, Pool.Next(s.pool, p).holders[p.id]);
  }

  lemma LinkPublishAt(s: State, w: Work, v: Ring.View, se: nat)
    requires WorkerFact(s, w) && Linked(s) && WorkAt(s, w, Enlisted)
    ensures Linked(PublishAt(s, w, v, se))
  {
    var r := s.works[w].req;
    var t := PublishAt(s, w, v, se);
    assert t.pool == s.pool && t.busy == s.busy[r := Published];
    assert LinkOk(s.pool.holders, s.busy, r);
    LinkMove(s.pool.holders, s.busy, r, Published);
  }

  lemma LinkPublishStep(s: State, w: Work, cmd: nat)
    requires s.g.Ok() && WorkerFact(s, w) && Linked(s) && WorkAt(s, w, Enlisted)
    ensures Linked(DoPublish(s, w, cmd))
  {
    if Ring.SpaceEnough(s.g, s.ring.head, s.ring.tail, cmd) {
      var v := Ring.Submit(s.g, s.ring, cmd, PduOf(s.pdu, s.works[w].req).op);
      LinkPublishAt(s, w, v, v.entries[|v.entries| - 1].pos);
    }
  }

  lemma LinkPhaseStep(s: State, w: Work, pc: WorkPc, loc: Loc)
    requires WorkerFact(s, w) && Linked(s) && w in s.works
    requires || (s.works[w].pc == Queued && loc == Preparing(w))
             || (s.works[w].pc == Filling && loc == Prepared(w) && Pool.In(s.pool, s.works[w].req, Pool.Held))
             || (s.works[w].pc == Ready && loc == Listed(w))
    ensures Linked(SetWork(s, w, pc, loc))
  {
    var r := s.works[w].req;
    assert SetWork(s, w, pc, loc).pool == s.pool && SetWork(s, w, pc, loc).busy == s.busy[r := loc];
    assert LinkOk(s.pool.holders, s.busy, r);
    LinkMove(s.pool.holders, s.busy, r, loc);
  }

  lemma LinkWorker(s: State, w: Work, step: WorkerStep)
    requires s.g.Ok() && WorkerFact(s, w) && Linked(s) && WorkerCan(s, w, step)
    ensures Linked(WorkerNext(s, w, step))
  {
    match step
    case Check => LinkCheckStep(s, w);
    case PiFail => LinkReturn(s, w);
    case Fill(p) => LinkFillStep(s, w, p);
    case FillFailed => LinkLeave(s.pool.holders, s.busy, s.works[w].req);
    case FillDone => LinkPhaseStep(s, w, Ready, Prepared(w));
    case Enlist => LinkPhaseStep(s, w, Enlisted, Listed(w));
    case Publish(cmd) => LinkPublishStep(s, w, cmd);
    case Unlist => LinkLeave(s.pool.holders, s.busy, s.works[w].req);
    case Notify =>
  }

  lemma LinkTakeOff(s: State, a: AgentId, r: Req, rest: seq<Req>)
    requires Linked(s) && a in s.agents && r in s.busy && s.busy[r] == Published
    ensures Linked(TakeOff(s, a, r, rest))
  {
    assert TakeOff(s, a, r, rest).pool == s.pool && TakeOff(s, a, r, rest).busy == s.busy[r := Fetched(a)];
    assert LinkOk(s.pool.holders, s.busy, r);
    LinkMove(s.pool.holders, s.busy, r, Fetched(a));
  }

  lemma LinkFetchStep(s: State, a: AgentId)
    requires FetchFact(s, a) && Linked(s) && a in s.agents && s.agents[a].pc.Took?
    ensures Linked(DoFetch(s, a))
  {
    var f := Find(s.inflight, s.pdu, s.agents[a].pc.tid);
    if f.Some? { LinkTakeOff(s, a, f.value, Without(s.inflight, f.value)); }
  }

  lemma LinkFreeStep(s: State, a: AgentId, p: Pool.Action)
    requires AgentFact(s, a) && Linked(s) && IsWorking(s, a, true) && (p.Free? || p.Gone?)
             && p.id == s.agents[a].pc.req && Pool.Enabled(s.pool, p)
    ensures Link(Pool.Next(s.pool, p).holders, s.busy)
  {
    assert LinkOk(s.pool.holders, s.busy, p.id);
    if p.Free? {
      LinkHolder(s.pool.holders, s.busy, p.id, Pool.Next(s.pool, p).holders[p.id]);
    } else {
      LinkForget(s.pool.holders, s.busy, p.id);
    }
  }

  lemma LinkMarkStep(s: State, a: AgentId)
    requires AgentFact(s, a) && Linked(s) && IsWorking(s, a, false)
    ensures Linked(DoMark(s, a))
  {
    var r := s.agents[a].pc.req;
    assert DoMark(s, a).pool == s.pool && DoMark(s, a).busy == s.busy[r := Marked(a)];
    assert LinkOk(s.pool.holders, s.busy, r);
    LinkMove(s.pool.holders, s.busy, r, Marked(a));
  }

  lemma LinkCompleter(s: State, a: AgentId, step: CompleterStep)
    requires AgentFact(s, a) && FetchFact(s, a) && Linked(s) && CompleterCan(s, a, step)
    ensures Linked(CompleterNext(s, a, step))
  {
    match step
    case Fetch => LinkFetchStep(s, a);
    case Mark => LinkMarkStep(s, a);
    case FreePages(p) => LinkFreeStep(s, a, p);
    case End => LinkLeave(s.pool.holders, s.busy, s.agents[a].pc.req);
    case _ =>
  }

  lemma LinkSpliceStep(s: State, a: AgentId)
    requires Linked(s) && a in s.agents
    requires forall r :: r in s.inflight ==> r in s.busy && s.busy[r] == Published
    ensures Linked(DoSplice(s, a))
  {
    var t := DoSplice(s, a);
    forall r ensures LinkOk(t.pool.holders, t.busy, r) { assert LinkOk(s.pool.holders, s.busy, r); }
  }

  lemma LinkPopStep(s: State, a: AgentId)
    requires Linked(s) && AgentFact(s, a) && a in s.agents && s.agents[a].tmp != []
    ensures Linked(DoPop(s, a))
  {
    var r := s.agents[a].tmp[0];
    assert r in s.agents[a].tmp;
    assert DoPop(s, a).pool == s.pool && DoPop(s, a).busy == s.busy[r := Fetched(a)];
    assert LinkOk(s.pool.holders, s.busy, r);
    LinkMove(s.pool.holders, s.busy, r, Fetched(a));
  }

  // ---------------------------------------------------------------- what a step leaves alone

  /** Ring, pool, completion ring and notifications are untouched. */
  predicate SameStores(s: State, t: State) {
    && t.g == s.g && t.ring == s.ring && t.pool == s.pool && t.cq == s.cq
    && t.events == s.events && t.notifying == s.notifying && t.nextWork == s.nextWork
    && t.raced == s.raced && t.sent == s.sent && t.pdu == s.pdu
  }

  predicate SameStatus(s: State, t: State) { t.status == s.status && t.sealed == s.sealed && t.stopper == s.stopper }

  predicate SameCounts(s: State, t: State) { t.ends == s.ends && t.requeues == s.requeues }

  predicate SameAround(s: State, t: State) {
    SameStores(s, t) && SameStatus(s, t) && t.lock == s.lock && t.agents == s.agents && t.works.Keys <= s.works.Keys
  }

  lemma ReturnFrame(s: State, w: Work)
    requires w in s.works
    ensures SameAround(s, Requeue(s, w)) && SameAround(s, Refuse(s, w))
    ensures Requeue(s, w).ends == s.ends && Requeue(s, w).requeues == Incr(s.requeues, s.works[w].req)
    ensures Refuse(s, w).ends == Incr(s.ends, s.works[w].req) && Refuse(s, w).requeues == s.requeues
  {
  }

  lemma PhaseFrame(s: State, w: Work, pc: WorkPc, loc: Loc)
    requires w in s.works
    ensures SameAround(s, SetWork(s, w, pc, loc)) && SameCounts(s, SetWork(s, w, pc, loc))
  {
  }

  lemma CheckFrame(s: State, w: Work)
    requires w in s.works
    ensures SameAround(s, DoCheck(s, w))
  {
    if s.status == Running { PhaseFrame(s, w, Filling, Preparing(w)); } else { ReturnFrame(s, w); }
  }

  lemma EnlistFrame(s: State, w: Work)
    requires w in s.works
    ensures SameAround(s, DoEnlist(s, w)) && SameCounts(s, DoEnlist(s, w))
  {
  }

  lemma UnlistFrame(s: State, w: Work)
    requires w in s.works
    ensures var t := DoUnlist(s, w);
            && SameStores(s, t.(pool := s.pool)) && SameStatus(s, t) && t.pool == Pool.Abandon(s.pool, s.works[w].req)
            && t.lock == s.lock && t.agents == s.agents && t.works.Keys <= s.works.Keys
            && t.ends == s.ends && t.requeues == Incr(s.requeues, s.works[w].req)
  {
  }

  lemma TakeOffFrame(s: State, a: AgentId, r: Req, rest: seq<Req>)
    requires a in s.agents
    ensures var t := TakeOff(s, a, r, rest);
            && SameStores(s, t) && SameStatus(s, t) && SameCounts(s, t) && t.works == s.works
            && t.agents == s.agents[a := t.agents[a]] && !t.agents[a].pc.Took?
            && (s.status != Stopping ==> t.lock == s.lock && !t.agents[a].pc.Storing?)
  {
  }

  lemma FetchFrame(s: State, a: AgentId)
    requires a in s.agents && s.agents[a].pc.Took?
    ensures var t := DoFetch(s, a);
            && SameStores(s, t) && SameStatus(s, t) && SameCounts(s, t) && t.works == s.works
            && a in t.agents && t.agents == s.agents[a := t.agents[a]] && !t.agents[a].pc.Took?
            && (s.status != Stopping ==> t.lock == s.lock && !t.agents[a].pc.Storing?)
  {
    var f := Find(s.inflight, s.pdu, s.agents[a].pc.tid);
    if f.Some? { TakeOffFrame(s, a, f.value, Without(s.inflight, f.value)); }
  }

  lemma SpliceFrame(s: State, a: AgentId)
    requires a in s.agents
    ensures var t := DoSplice(s, a);
            SameStores(s, t) && SameCounts(s, t) && t.works == s.works && t.busy.Keys == s.busy.Keys
                && t.lock == s.lock && t.stopper == s.stopper
  {
  }

  // ---------------------------------------------------------------- ring and pool

  ghost predicate RingOk(s: State) { s.g.Ok() && Ring.Valid(s.g, s.ring) }

  lemma RingFrame(s: State, t: State)
    requires RingOk(s) && t.g == s.g && t.ring == s.ring
    ensures RingOk(t)
  {
  }

  lemma RingPublishStep(s: State, w: Work, cmd: nat)
    requires RingOk(s) && w in s.works && Ring.CmdOk(s.g, cmd) && !PduOf(s.pdu, s.works[w].req).op.Pad?
    ensures RingOk(DoPublish(s, w, cmd))
  {
    if Ring.SpaceEnough(s.g, s.ring.head, s.ring.tail, cmd) {
      Ring.SubmitAppends(s.g, s.ring, cmd, PduOf(s.pdu, s.works[w].req).op);
    }
  }

  lemma RingWorker(s: State, w: Work, step: WorkerStep)
    requires RingOk(s) && WorkerCan(s, w, step)
    requires step.Publish? ==> !PduOf(s.pdu, s.works[w].req).op.Pad?
    ensures RingOk(WorkerNext(s, w, step))
  {
    match step
    case Check => CheckFrame(s, w); RingFrame(s, DoCheck(s, w));
    case PiFail => ReturnFrame(s, w); RingFrame(s, Requeue(s, w));
    case Fill(p) => RingFrame(s, s.(pool := Pool.Next(s.pool, p)));
    case FillFailed => ReturnFrame(s, w); RingFrame(s, WorkerNext(s, w, step));
    case FillDone => PhaseFrame(s, w, Ready, Prepared(w)); RingFrame(s, SetWork(s, w, Ready, Prepared(w)));
    case Enlist => EnlistFrame(s, w); RingFrame(s, DoEnlist(s, w));
    case Publish(cmd) => RingPublishStep(s, w, cmd);
    case Unlist => UnlistFrame(s, w); RingFrame(s, DoUnlist(s, w));
    case Notify => RingFrame(s, WorkerNext(s, w, step));
  }

  lemma RingMarkStep(s: State, a: AgentId)
    requires RingOk(s) && IsWorking(s, a, false)
    ensures RingOk(DoMark(s, a))
  {
    Ring.MarkDoneKeepsValid(s.g, s.ring, PduOf(s.pdu, s.agents[a].pc.req).se);
  }

  lemma RingAdvanceStep(s: State, a: AgentId)
    requires RingOk(s) && a in s.agents
    ensures RingOk(SetPc(s, a, Loop).(ring := Ring.Advance(s.ring)))
  {
    Ring.AdvanceDropsDonePrefix(s.g, s.ring);
  }

  lemma RingCompleter(s: State, a: AgentId, step: CompleterStep)
    requires RingOk(s) && CompleterCan(s, a, step)
    ensures RingOk(CompleterNext(s, a, step))
  {
    match step
    case Take => RingFrame(s, CompleterNext(s, a, step));
    case Fetch => FetchFrame(s, a); RingFrame(s, DoFetch(s, a));
    case Store => RingFrame(s, DoStore(s, a));
    case Mark => RingMarkStep(s, a);
    case FreePages(p) => RingFrame(s, s.(pool := Pool.Next(s.pool, p)));
    case End => RingFrame(s, DoEnd(s, a));
    case Advance => RingAdvanceStep(s, a);
    case Exit => RingFrame(s, CompleterNext(s, a, step));
  }

  lemma RingOutside(s: State, step: OutsideStep)
    requires RingOk(s) && OutsideCan(s, step)
    ensures RingOk(OutsideNext(s, step))
  {
    match step
    case PadDone(pos) => Ring.MarkDoneKeepsValid(s.g, s.ring, pos);
    case _ => RingFrame(s, OutsideNext(s, step));
  }

  lemma PoolWorker(s: State, w: Work, step: WorkerStep)
    requires s.g.Ok() && Pool.Inv(s.pool) && WorkerCan(s, w, step)
    requires step.Unlist? ==> Pool.In(s.pool, s.works[w].req, Pool.Held)
    ensures Pool.Inv(WorkerNext(s, w, step).pool)
  {
    match step
    case Check => CheckFrame(s, w);
    case PiFail => ReturnFrame(s, w);
    case Fill(p) => Pool.StepInv(s.pool, p);
    case FillFailed => PoolFailStep(s, w);
    case FillDone => PhaseFrame(s, w, Ready, Prepared(w));
    case Enlist => EnlistFrame(s, w);
    case Publish(cmd) => PoolPublishStep(s, w, cmd);
    case Unlist => PoolUnlistStep(s, w);
    case Notify =>
  }

  lemma PoolFailStep(s: State, w: Work)
    requires w in s.works && Pool.Inv(s.pool) && Pool.Enabled(s.pool, Pool.Fail(s.works[w].req))
    ensures Pool.Inv(Pool.Next(s.pool, Pool.Fail(s.works[w].req)))
  {
    Pool.StepInv(s.pool, Pool.Fail(s.works[w].req));
  }

  lemma PublishAtFrame(s: State, w: Work, v: Ring.View, se: nat)
    requires w in s.works
    ensures var t := PublishAt(s, w, v, se);
            && t.pool == s.pool && t.agents == s.agents && t.cq == s.cq && t.raced == s.raced && t.sent == s.sent
            && SameStatus(s, t) && SameCounts(s, t) && t.lock == s.lock
  {
  }

  lemma PoolPublishStep(s: State, w: Work, cmd: nat)
    requires s.g.Ok() && w in s.works
    ensures var t := DoPublish(s, w, cmd);
            && t.pool == s.pool && t.agents == s.agents && t.cq == s.cq && t.raced == s.raced && t.sent == s.sent
            && SameStatus(s, t) && SameCounts(s, t) && t.lock == s.lock
  {
    if Ring.SpaceEnough(s.g, s.ring.head, s.ring.tail, cmd) {
      var v := Ring.Submit(s.g, s.ring, cmd, PduOf(s.pdu, s.works[w].req).op);
      PublishAtFrame(s, w, v, v.entries[|v.entries| - 1].pos);
    }
  }

  lemma PoolUnlistStep(s: State, w: Work)
    requires w in s.works && Pool.Inv(s.pool) && Pool.In(s.pool, s.works[w].req, Pool.Held)
    ensures Pool.Inv(DoUnlist(s, w).pool)
  {
    Pool.StepInv(s.pool, Pool.Strand(s.works[w].req));
  }

  // ---------------------------------------------------------------- pages wanted

  /** What a pool step makes of the numbers of pages wanted. */
  lemma PoolWants(p: Pool.State, step: Pool.Action)
    requires Pool.Enabled(p, step)
    ensures var q := Pool.Next(p, step);
            forall r :: r in q.holders ==>
              step == Pool.Begin(r, q.holders[r].want) || (r in p.holders && q.holders[r].want == p.holders[r].want)
  {
  }

  lemma WantingPool(s: State, t: State, step: Pool.Action)
    requires Wanting(s) && Pool.Enabled(s.pool, step) && t.pool == Pool.Next(s.pool, step) && t.pdu == s.pdu
    requires step.Begin? ==> step.want == PduOf(s.pdu, step.id).segs
    ensures Wanting(t)
  {
    PoolWants(s.pool, step);
  }

  lemma WantingFrame(s: State, t: State)
    requires Wanting(s) && t.pdu == s.pdu
    requires forall r :: r in t.pool.holders ==> r in s.pool.holders && t.pool.holders[r] == s.pool.holders[r]
    ensures Wanting(t)
  {
  }

  lemma WantingPublishAt(s: State, w: Work, v: Ring.View, se: nat)
    requires Wanting(s) && w in s.works
    ensures Wanting(PublishAt(s, w, v, se))
  {
    var t := PublishAt(s, w, v, se);
    assert t.pool == s.pool && t.pdu == s.pdu[s.works[w].req := PduOf(s.pdu, s.works[w].req).(tid := v.tid, se := se)];
  }

  lemma WantingPublishStep(s: State, w: Work, cmd: nat)
    requires s.g.Ok() && Wanting(s) && w in s.works
    ensures Wanting(DoPublish(s, w, cmd))
  {
    if Ring.SpaceEnough(s.g, s.ring.head, s.ring.tail, cmd) {
      var v := Ring.Submit(s.g, s.ring, cmd, PduOf(s.pdu, s.works[w].req).op);
      WantingPublishAt(s, w, v, v.entries[|v.entries| - 1].pos);
    }
  }

  lemma WantingWorker(s: State, w: Work, step: WorkerStep)
    requires s.g.Ok() && Wanting(s) && WorkerCan(s, w, step)
    ensures Wanting(WorkerNext(s, w, step))
  {
    var t := WorkerNext(s, w, step);
    match step
    case Check => CheckFrame(s, w); WantingFrame(s, t);
    case PiFail => ReturnFrame(s, w); WantingFrame(s, t);
    case Fill(p) => WantingPool(s, t, p);
    case FillFailed => WantingPool(s, t, Pool.Fail(s.works[w].req));
    case FillDone => PhaseFrame(s, w, Ready, Prepared(w)); WantingFrame(s, t);
    case Enlist => EnlistFrame(s, w); WantingFrame(s, t);
    case Publish(cmd) => WantingPublishStep(s, w, cmd);
    case Unlist => UnlistFrame(s, w); WantingFrame(s, t);
    case Notify => WantingFrame(s, t);
  }

  lemma WantingCompleter(s: State, a: AgentId, step: CompleterStep)
    requires Wanting(s) && CompleterCan(s, a, step)
    ensures Wanting(CompleterNext(s, a, step))
  {
    var t := CompleterNext(s, a, step);
    match step
    case Fetch => FetchFrame(s, a); WantingFrame(s, t);
    case FreePages(p) => WantingPool(s, t, p);
    case _ => assert t.pool == s.pool && t.pdu == s.pdu;
  }

  lemma WantingOutside(s: State, step: OutsideStep)
    requires Linked(s) && Wanting(s) && OutsideCan(s, step)
    ensures Wanting(OutsideNext(s, step))
  {
    var t := OutsideNext(s, step);
    match step
    case QueueRq(r, op, segs) =>
      assert LinkOk(s.pool.holders, s.busy, r);
      assert t.pool == s.pool && t.pdu == s.pdu[r := Pdu(op, segs, 0, 0)];
    case Memory(p) => WantingPool(s, t, p);
    case _ => assert t.pool == s.pool && t.pdu == s.pdu;
  }

  // ---------------------------------------------------------------- counters

  lemma BalancedStart(t: Tally, r: Req)
    requires Balanced(t) && r !in t.busy
    ensures Balanced(t.(starts := Incr(t.starts, r), busy := t.busy + {r}))
  {
    var u := t.(starts := Incr(t.starts, r), busy := t.busy + {r});
    forall q ensures BalancedFor(u, q) { assert BalancedFor(t, q); }
  }

  lemma BalancedFinish(t: Tally, r: Req)
    requires Balanced(t) && r in t.busy
    ensures Balanced(t.(ends := Incr(t.ends, r), busy := t.busy - {r}))
    ensures Balanced(t.(requeues := Incr(t.requeues, r), busy := t.busy - {r}))
  {
    var u := t.(ends := Incr(t.ends, r), busy := t.busy - {r});
    var v := t.(requeues := Incr(t.requeues, r), busy := t.busy - {r});
    forall q ensures BalancedFor(u, q) && BalancedFor(v, q) { assert BalancedFor(t, q); }
  }

  lemma BalancedReturn(s: State, w: Work)
    requires Balanced(TallyOf(s)) && w in s.works && WorkerFact(s, w)
    ensures Balanced(TallyOf(Requeue(s, w))) && Balanced(TallyOf(Refuse(s, w)))
  {
    var r := s.works[w].req;
    var b := TallyOf(s);
    assert (s.busy - {r}).Keys == s.busy.Keys - {r};
    assert TallyOf(Requeue(s, w)) == b.(requeues := Incr(b.requeues, r), busy := b.busy - {r});
    assert TallyOf(Refuse(s, w)) == b.(ends := Incr(b.ends, r), busy := b.busy - {r});
    BalancedFinish(b, r);
  }

  lemma BalancedWorker(s: State, w: Work, step: WorkerStep)
    requires s.g.Ok() && Balanced(TallyOf(s)) && WorkerFact(s, w) && WorkerCan(s, w, step)
    ensures Balanced(TallyOf(WorkerNext(s, w, step)))
  {
    var t := WorkerNext(s, w, step);
    match step
    case Check => BalancedCheckStep(s, w);
    case PiFail => BalancedReturn(s, w);
    case FillFailed => BalancedReturn(s, w); assert TallyOf(t) == TallyOf(Requeue(s, w));
    case Unlist => BalancedReturn(s, w); assert TallyOf(t) == TallyOf(Requeue(s, w));
    case Publish(cmd) => BalancedPublishStep(s, w, cmd);
    case _ => assert t.busy.Keys == s.busy.Keys; assert TallyOf(t) == TallyOf(s);
  }

  lemma BalancedCheckStep(s: State, w: Work)
    requires Balanced(TallyOf(s)) && w in s.works && WorkerFact(s, w)
    ensures Balanced(TallyOf(DoCheck(s, w)))
  {
    BalancedReturn(s, w);
    if s.status == Running {
      var t := SetWork(s, w, Filling, Preparing(w));
      assert t.busy.Keys == s.busy.Keys;
      assert TallyOf(t) == TallyOf(s);
    }
  }

  lemma BalancedPublishAt(s: State, w: Work, v: Ring.View, se: nat)
    requires w in s.works && WorkerFact(s, w)
    ensures TallyOf(PublishAt(s, w, v, se)) == TallyOf(s)
  {
    assert PublishAt(s, w, v, se).busy.Keys == s.busy.Keys;
  }

  lemma BalancedPublishStep(s: State, w: Work, cmd: nat)
    requires s.g.Ok() && Balanced(TallyOf(s)) && w in s.works && WorkerFact(s, w)
    ensures Balanced(TallyOf(DoPublish(s, w, cmd)))
  {
    if Ring.SpaceEnough(s.g, s.ring.head, s.ring.tail, cmd) {
      var v := Ring.Submit(s.g, s.ring, cmd, PduOf(s.pdu, s.works[w].req).op);
      BalancedPublishAt(s, w, v, v.entries[|v.entries| - 1].pos);
    }
  }

  lemma BalancedEndStep(s: State, a: AgentId)
    requires Balanced(TallyOf(s)) && AgentFact(s, a) && IsWorking(s, a, true)
    ensures Balanced(TallyOf(DoEnd(s, a)))
  {
    var r := s.agents[a].pc.req;
    var b := TallyOf(s);
    assert (s.busy - {r}).Keys == s.busy.Keys - {r};
    assert TallyOf(DoEnd(s, a)) == b.(ends := Incr(b.ends, r), busy := b.busy - {r});
    BalancedFinish(b, r);
  }

  lemma BalancedTakeOff(s: State, a: AgentId, r: Req, rest: seq<Req>)
    requires a in s.agents && r in s.busy
    ensures TallyOf(TakeOff(s, a, r, rest)) == TallyOf(s)
  {
    assert TakeOff(s, a, r, rest).busy.Keys == s.busy.Keys;
  }

  lemma BalancedFetchStep(s: State, a: AgentId)
    requires Balanced(TallyOf(s)) && FetchFact(s, a) && a in s.agents && s.agents[a].pc.Took?
    ensures Balanced(TallyOf(DoFetch(s, a)))
  {
    var f := Find(s.inflight, s.pdu, s.agents[a].pc.tid);
    if f.Some? { BalancedTakeOff(s, a, f.value, Without(s.inflight, f.value)); }
  }

  lemma BalancedMarkStep(s: State, a: AgentId)
    requires Balanced(TallyOf(s)) && AgentFact(s, a) && IsWorking(s, a, false)
    ensures Balanced(TallyOf(DoMark(s, a)))
  {
    var t := DoMark(s, a);
    assert t.busy.Keys == s.busy.Keys;
    assert TallyOf(t) == TallyOf(s);
  }

  lemma BalancedCompleter(s: State, a: AgentId, step: CompleterStep)
    requires Balanced(TallyOf(s)) && AgentFact(s, a) && FetchFact(s, a) && CompleterCan(s, a, step)
    ensures Balanced(TallyOf(CompleterNext(s, a, step)))
  {
    match step
    case Fetch => BalancedFetchStep(s, a);
    case Mark => BalancedMarkStep(s, a);
    case End => BalancedEndStep(s, a);
    case _ => assert TallyOf(CompleterNext(s, a, step)) == TallyOf(s);
  }

  lemma BalancedRemover(s: State, a: AgentId, step: RemoverStep)
    requires Balanced(TallyOf(s)) && AgentFact(s, a) && RemoverCan(s, a, step)
    ensures Balanced(TallyOf(RemoverNext(s, a, step)))
  {
    var t := RemoverNext(s, a, step);
    if step.Pop? { assert s.agents[a].tmp[0] in s.agents[a].tmp; }
    assert t.busy.Keys == s.busy.Keys;
    assert TallyOf(t) == TallyOf(s);
  }

  lemma BalancedOutside(s: State, step: OutsideStep)
    requires Balanced(TallyOf(s)) && OutsideCan(s, step)
    ensures Balanced(TallyOf(OutsideNext(s, step)))
  {
    var b := TallyOf(s);
    match step
    case QueueRq(r, op, segs) =>
      assert TallyOf(DoQueueRq(s, r, op, segs)) == b.(starts := Incr(b.starts, r), busy := b.busy + {r});
      BalancedStart(b, r);
    case _ => assert TallyOf(OutsideNext(s, step)) == b;
  }

  // ---------------------------------------------------------------- notifications and completions

  lemma NotifiedPublishAt(s: State, w: Work, v: Ring.View, se: nat)
    requires Notified(s) && w in s.works && WorkerFact(s, w) && v.tid == s.ring.tid + 1
    ensures Notified(PublishAt(s, w, v, se))
  {
    assert w !in s.notifying;
    assert |s.notifying + {w}| == |s.notifying| + 1;
  }

  lemma NotifiedPublishStep(s: State, w: Work, cmd: nat)
    requires s.g.Ok() && Notified(s) && w in s.works && WorkerFact(s, w)
    ensures Notified(DoPublish(s, w, cmd))
  {
    if Ring.SpaceEnough(s.g, s.ring.head, s.ring.tail, cmd) {
      var v := Ring.Submit(s.g, s.ring, cmd, PduOf(s.pdu, s.works[w].req).op);
      NotifiedPublishAt(s, w, v, v.entries[|v.entries| - 1].pos);
    } else {
      NotifiedFrame(s, DoPublish(s, w, cmd));
    }
  }

  lemma NotifiedFrame(s: State, t: State)
    requires Notified(s) && t.ring.tid == s.ring.tid && t.events == s.events && t.notifying == s.notifying
             && t.nextWork >= s.nextWork
    requires forall w :: w in t.works ==> w in s.works || w == s.nextWork
    ensures Notified(t)
  {
  }

  lemma NotifiedWorker(s: State, w: Work, step: WorkerStep)
    requires s.g.Ok() && Notified(s) && WorkerFact(s, w) && WorkerCan(s, w, step)
    ensures Notified(WorkerNext(s, w, step))
  {
    match step
    case Check => CheckFrame(s, w); NotifiedFrame(s, DoCheck(s, w));
    case PiFail => ReturnFrame(s, w); NotifiedFrame(s, Requeue(s, w));
    case Fill(p) => NotifiedFrame(s, s.(pool := Pool.Next(s.pool, p)));
    case FillFailed => ReturnFrame(s, w); NotifiedFrame(s, WorkerNext(s, w, step));
    case FillDone => PhaseFrame(s, w, Ready, Prepared(w)); NotifiedFrame(s, SetWork(s, w, Ready, Prepared(w)));
    case Enlist => EnlistFrame(s, w); NotifiedFrame(s, DoEnlist(s, w));
    case Publish(cmd) => NotifiedPublishStep(s, w, cmd);
    case Unlist => UnlistFrame(s, w); NotifiedFrame(s, DoUnlist(s, w));
    case Notify => assert |s.notifying - {w}| == |s.notifying| - 1;
  }

  lemma NotifiedCompleter(s: State, a: AgentId, step: CompleterStep)
    requires Notified(s) && CompleterCan(s, a, step)
    ensures Notified(CompleterNext(s, a, step))
  {
    match step
    case Take => NotifiedFrame(s, CompleterNext(s, a, step));
    case Fetch => FetchFrame(s, a); NotifiedFrame(s, DoFetch(s, a));
    case Store => NotifiedFrame(s, DoStore(s, a));
    case Mark => NotifiedFrame(s, DoMark(s, a));
    case FreePages(p) => NotifiedFrame(s, s.(pool := Pool.Next(s.pool, p)));
    case End => NotifiedFrame(s, DoEnd(s, a));
    case Advance => NotifiedFrame(s, SetPc(s, a, Loop).(ring := Ring.Advance(s.ring)));
    case Exit => NotifiedFrame(s, CompleterNext(s, a, step));
  }

  lemma PostedFrame(s: State, t: State, a: AgentId)
    requires Posted(s) && t.cq == s.cq
    requires forall b :: b in t.agents && b != a ==> b in s.agents && t.agents[b] == s.agents[b]
    requires a in t.agents ==> !t.agents[a].pc.Took?
    ensures Posted(t)
  {
  }

  lemma PostedCompleter(s: State, a: AgentId, step: CompleterStep)
    requires Posted(s) && CompleterCan(s, a, step)
    ensures Posted(CompleterNext(s, a, step))
  {
    match step
    case Take => assert 0 < s.cq[0];
    case Fetch => FetchFrame(s, a); PostedFrame(s, DoFetch(s, a), a);
    case Store => PostedFrame(s, DoStore(s, a), a);
    case Mark => PostedFrame(s, DoMark(s, a), a);
    case FreePages(p) => PostedFrame(s, s.(pool := Pool.Next(s.pool, p)), a);
    case End => PostedFrame(s, DoEnd(s, a), a);
    case Advance => PostedFrame(s, SetPc(s, a, Loop).(ring := Ring.Advance(s.ring)), a);
    case Exit => PostedFrame(s, CompleterNext(s, a, step), a);
  }

  lemma PostedSame(s: State, t: State)
    requires Posted(s) && t.cq == s.cq && t.agents == s.agents
    ensures Posted(t)
  {
  }

  lemma PostedWorker(s: State, w: Work, step: WorkerStep)
    requires s.g.Ok() && Posted(s) && WorkerCan(s, w, step)
    ensures Posted(WorkerNext(s, w, step))
  {
    match step
    case Check => CheckFrame(s, w); PostedSame(s, DoCheck(s, w));
    case PiFail => ReturnFrame(s, w); PostedSame(s, Requeue(s, w));
    case Fill(p) => PostedSame(s, s.(pool := Pool.Next(s.pool, p)));
    case FillFailed => ReturnFrame(s, w); PostedSame(s, WorkerNext(s, w, step));
    case FillDone => PhaseFrame(s, w, Ready, Prepared(w)); PostedSame(s, SetWork(s, w, Ready, Prepared(w)));
    case Enlist => EnlistFrame(s, w); PostedSame(s, DoEnlist(s, w));
    case Publish(cmd) => PoolPublishStep(s, w, cmd); PostedSame(s, DoPublish(s, w, cmd));
    case Unlist => UnlistFrame(s, w); PostedSame(s, DoUnlist(s, w));
    case Notify => PostedSame(s, WorkerNext(s, w, step));
  }

  lemma PostedOutside(s: State, step: OutsideStep)
    requires Posted(s) && OutsideCan(s, step)
    ensures Posted(OutsideNext(s, step))
  {
    match step
    case Send(tid) =>
    case Enter(a) => PostedFrame(s, OutsideNext(s, step), a);
    case Remove(a, force) => PostedFrame(s, DoRemove(s, a, force), a);
    case _ => PostedSame(s, OutsideNext(s, step));
  }

  // ---------------------------------------------------------------- every action

  /** What a worker's step needs to know besides its own position. */
  lemma WorkerNeeds(s: State, w: Work)
    requires Own(BooksOf(s)) && Tids(RegistryOf(s)) && Linked(s) && w in s.works
    ensures !PduOf(s.pdu, s.works[w].req).op.Pad?
    ensures s.works[w].pc == RingFull ==> Pool.In(s.pool, s.works[w].req, Pool.Held)
  {
    assert WorkOk(BooksOf(s), w);
    assert ReqOk(RegistryOf(s), s.works[w].req);
    assert LinkOk(s.pool.holders, s.busy, s.works[w].req);
  }

  lemma GoodWorker(s: State, w: Work, step: WorkerStep)
    requires Good(s) && WorkerCan(s, w, step)
    ensures Good(WorkerNext(s, w, step))
  {
    OwnFacts(s, w, 0);
    if w in s.works { WorkerNeeds(s, w); }
    RingWorker(s, w, step);
    PoolWorker(s, w, step);
    OwnWorker(s, w, step);
    TidsWorker(s, w, step);
    GatesWorker(s, w, step);
    LinkWorker(s, w, step);
    WantingWorker(s, w, step);
    BalancedWorker(s, w, step);
    NotifiedWorker(s, w, step);
    PostedWorker(s, w, step);
  }

  lemma PoolCompleter(s: State, a: AgentId, step: CompleterStep)
    requires Pool.Inv(s.pool) && CompleterCan(s, a, step)
    ensures Pool.Inv(CompleterNext(s, a, step).pool)
  {
    match step
    case Fetch => FetchFrame(s, a);
    case FreePages(p) => Pool.StepInv(s.pool, p);
    case _ =>
  }

  lemma GoodCompleter(s: State, a: AgentId, step: CompleterStep)
    requires Good(s) && CompleterCan(s, a, step)
    ensures Good(CompleterNext(s, a, step))
  {
    OwnFacts(s, 0, a);
    FetchFacts(s, a);
    RingCompleter(s, a, step);
    PoolCompleter(s, a, step);
    OwnCompleter(s, a, step);
    TidsCompleter(s, a, step);
    GatesCompleter(s, a, step);
    LinkCompleter(s, a, step);
    WantingCompleter(s, a, step);
    BalancedCompleter(s, a, step);
    NotifiedCompleter(s, a, step);
    PostedCompleter(s, a, step);
  }

  /** Removal steps move requests and program counters only. */
  lemma RemoverFrame(s: State, a: AgentId, step: RemoverStep)
    requires RemoverCan(s, a, step)
    ensures var t := RemoverNext(s, a, step);
            && SameStores(s, t) && SameCounts(s, t) && t.works == s.works && t.lock == s.lock && t.stopper == s.stopper
            && a in t.agents && t.agents == s.agents[a := t.agents[a]] && !t.agents[a].pc.Took?
               && !t.agents[a].pc.Storing?
  {
    if step.Splice? { SpliceFrame(s, a); }
  }

  lemma LinkRemover(s: State, a: AgentId, step: RemoverStep)
    requires Own(BooksOf(s)) && Gates(GateOf(s)) && Linked(s) && RemoverCan(s, a, step)
    ensures Linked(RemoverNext(s, a, step))
  {
    OwnFacts(s, 0, a);
    match step
    case Splice => SpliceFacts(s, a); LinkSpliceStep(s, a);
    case Pop => LinkPopStep(s, a);
    case _ =>
  }

  lemma RestRemover(s: State, a: AgentId, step: RemoverStep)
    requires RingOk(s) && Pool.Inv(s.pool) && Wanting(s) && Notified(s) && Posted(s) && RemoverCan(s, a, step)
    ensures var t := RemoverNext(s, a, step); RingOk(t) && Pool.Inv(t.pool) && Wanting(t) && Notified(t) && Posted(t)
  {
    var t := RemoverNext(s, a, step);
    RemoverFrame(s, a, step);
    RingFrame(s, t);
    NotifiedFrame(s, t);
    PostedFrame(s, t, a);
  }

  lemma GoodRemover(s: State, a: AgentId, step: RemoverStep)
    requires Good(s) && RemoverCan(s, a, step)
    ensures Good(RemoverNext(s, a, step))
  {
    OwnFacts(s, 0, a);
    RestRemover(s, a, step);
    OwnRemover(s, a, step);
    TidsRemover(s, a, step);
    GatesRemover(s, a, step);
    LinkRemover(s, a, step);
    BalancedRemover(s, a, step);
  }

  lemma GoodControl(s: State, step: ControlStep)
    requires Good(s) && ControlCan(s, step)
    ensures Good(ControlNext(s, step))
  {
    var t := ControlNext(s, step);
    assert BooksOf(t) == BooksOf(s) && RegistryOf(t) == RegistryOf(s) && TallyOf(t) == TallyOf(s) && SameStores(s, t);
    OwnFacts(s, 0, 0);
    RingFrame(s, t);
    GatesControl(s, step);
    NotifiedFrame(s, t);
    PostedSame(s, t);
  }

  lemma PoolOutside(s: State, step: OutsideStep)
    requires Pool.Inv(s.pool) && OutsideCan(s, step)
    ensures Pool.Inv(OutsideNext(s, step).pool)
  {
    match step
    case Memory(p) => Pool.StepInv(s.pool, p);
    case _ =>
  }

  lemma LinkOutside(s: State, step: OutsideStep)
    requires Linked(s) && OutsideCan(s, step)
    ensures Linked(OutsideNext(s, step))
  {
    match step
    case QueueRq(r, op, segs) =>
      assert LinkOk(s.pool.holders, s.busy, r);
      LinkMove(s.pool.holders, s.busy, r, Pending(s.nextWork));
    case _ =>
  }

  lemma NotifiedOutside(s: State, step: OutsideStep)
    requires Notified(s) && OutsideCan(s, step)
    ensures Notified(OutsideNext(s, step))
  {
    NotifiedFrame(s, OutsideNext(s, step));
  }

  lemma GoodOutside(s: State, step: OutsideStep)
    requires Good(s) && OutsideCan(s, step) && !OutsideNext(s, step).raced
    ensures Good(OutsideNext(s, step))
  {
    RingOutside(s, step);
    PoolOutside(s, step);
    OwnOutside(s, step);
    TidsOutside(s, step);
    GatesOutside(s, step);
    LinkOutside(s, step);
    WantingOutside(s, step);
    BalancedOutside(s, step);
    NotifiedOutside(s, step);
    PostedOutside(s, step);
  }

  /** One action keeps the invariant, unless it is a forced removal that races a completer's store. */
  lemma StepGood(s: State, a: Action)
    requires Good(s) && Enabled(s, a) && !Next(s, a).raced
    ensures Good(Next(s, a))
  {
    match a
    case ByWorker(w, step) => GoodWorker(s, w, step);
    case ByCompleter(c, step) => GoodCompleter(s, c, step);
    case ByRemover(c, step) => GoodRemover(s, c, step);
    case ByControl(step) => GoodControl(s, step);
    case ByOutside(step) => GoodOutside(s, step);
  }

  // ---------------------------------------------------------------- the race flag and the status

  lemma FlagsWorker(s: State, w: Work, step: WorkerStep)
    requires s.g.Ok() && WorkerCan(s, w, step)
    ensures var t := WorkerNext(s, w, step);
              t.raced == s.raced && t.sent == s.sent && SameStatus(s, t) && t.lock == s.lock
  {
    match step
    case Check => CheckFrame(s, w);
    case PiFail => ReturnFrame(s, w);
    case Fill(_) =>
    case FillFailed => ReturnFrame(s, w);
    case FillDone => PhaseFrame(s, w, Ready, Prepared(w));
    case Enlist => EnlistFrame(s, w);
    case Publish(cmd) => PoolPublishStep(s, w, cmd);
    case Unlist => UnlistFrame(s, w);
    case Notify =>
  }

  lemma FlagsCompleter(s: State, a: AgentId, step: CompleterStep)
    requires CompleterCan(s, a, step)
    ensures var t := CompleterNext(s, a, step);
            && t.raced == s.raced && t.sent == s.sent
            && (!step.Store? ==> SameStatus(s, t) && (s.status != Stopping ==> t.lock == s.lock))
  {
    match step
    case Take =>
    case Fetch => FetchFrame(s, a);
    case Store =>
    case Mark =>
    case FreePages(_) =>
    case End =>
    case Advance =>
    case Exit =>
  }

  lemma FlagsRemover(s: State, a: AgentId, step: RemoverStep)
    requires RemoverCan(s, a, step)
    ensures var t := RemoverNext(s, a, step);
            && t.raced == s.raced && t.sent == s.sent && t.status == s.status && t.lock == s.lock
               && (s.sealed ==> t.sealed)
  {
    RemoverFrame(s, a, step);
    match step
    case Flush =>
    case FlushDone =>
    case Splice =>
    case Pop =>
  }

  lemma FlagsControl(s: State, step: ControlStep)
    requires ControlCan(s, step)
    ensures var t := ControlNext(s, step); t.raced == s.raced && t.sent == s.sent && t.sealed == s.sealed
  {
  }

  lemma FlagsOutside(s: State, step: OutsideStep)
    requires OutsideCan(s, step)
    ensures var t := OutsideNext(s, step);
            && t.raced == (s.raced || (step.Remove? && step.force && s.lock.Some?))
            && t.sealed == s.sealed && t.lock == s.lock && (t.status == s.status || t.status == Removing)
  {
    match step
    case QueueRq(r, op, segs) =>
    case PadDone(_) =>
    case Send(_) =>
    case Enter(_) =>
    case Remove(_, _) =>
    case Memory(_) =>
  }

  /** Only a forced removal raises the race flag, and only while the lock is held. */
  lemma RacedStep(s: State, a: Action)
    requires s.g.Ok() && Enabled(s, a)
    ensures Next(s, a).raced == (s.raced || (a.ByOutside? && a.outside.Remove? && a.outside.force && s.lock.Some?))
  {
    match a
    case ByWorker(w, step) => FlagsWorker(s, w, step);
    case ByCompleter(c, step) => FlagsCompleter(s, c, step);
    case ByRemover(c, step) => FlagsRemover(s, c, step);
    case ByControl(step) => FlagsControl(s, step);
    case ByOutside(step) => FlagsOutside(s, step);
  }
}
