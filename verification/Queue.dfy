/**
 One queue as a state machine. Workers, completers, queue stop/start and removals interleave; every
 action is one critical section (or one lock-free access) of the driver, the block layer or the backend.

 Fields marked "history" are written by the actions and read by none of them.
 */
module Queue {
  import Ring
  import Pool

  type Req = nat
  type Work = nat
  type AgentId = nat

  datatype Status = Running | Stopping | Stopped | Removing

  /** The driver's per-request data, cleared by ubbd_queue_rq: operation, segments, tid and entry pointer. */
  datatype Pdu = Pdu(op: Ring.Op, segs: nat, tid: nat, se: nat)

  /** Program counter of ubbd_queue_workfn. */
  datatype WorkPc = Queued | Filling | Ready | Enlisted | RingFull

  datatype Worker = Worker(req: Req, pc: WorkPc)

  datatype Kind = Completer | Remover(force: bool)

  /**
   Program counter of ubbd_queue_complete (Loop, Took, Storing, Working, Advancing) and of a removal
   (Entered, FlushWait, Flushed, then Loop, Working, Advancing over its private list).
   Storing is inside fetch_inflight_req: STOPPING was read with the list empty, STOPPED not yet written.
   */
  datatype Pc =
    | Entered | FlushWait(limit: Work) | Flushed
    | Loop | Took(tid: nat) | Storing(req: Req) | Working(req: Req, marked: bool) | Advancing

  datatype Agent = Agent(kind: Kind, pc: Pc, tmp: seq<Req>)

  /** queue_stop; anything but Idle holds the queue's state_lock. */
  datatype Stopper = Idle | StopSet | StopWait(limit: Work) | StopFlushed

  /** Where a started request is. */
  datatype Loc =
    | Pending(w: Work) | Preparing(w: Work) | Prepared(w: Work) | Listed(w: Work)
    | Published
    | Spliced(a: AgentId) | Fetched(a: AgentId) | Marked(a: AgentId)

  predicate Unpublished(loc: Loc) { loc.Pending? || loc.Preparing? || loc.Prepared? || loc.Listed? }

  datatype State = State(
    g: Ring.Shape,
    status: Status,
    ring: Ring.View,
    pool: Pool.State,
    inflight: seq<Req>,
    pdu: map<Req, Pdu>,
    works: map<Work, Worker>,
    nextWork: Work,
    notifying: set<Work>,
    events: nat,
    agents: map<AgentId, Agent>,
    stopper: Stopper,
    lock: Pool.Option<AgentId>,     // inflight_reqs_lock, when held across actions
    cq: seq<nat>,                   // tids in the completion ring
    busy: map<Req, Loc>,            // keys: started requests, the block layer's own view; values: history
    starts: map<Req, nat>,          // history
    ends: map<Req, nat>,            // history
    requeues: map<Req, nat>,        // history
    pub: map<nat, Req>,             // history: published tids whose entry is not DONE
    sent: set<nat>,                 // history: tids the backend completed
    sealed: bool,                   // history: a forced removal emptied the inflight list
    raced: bool                     // history: a forced removal began while a completer stood at Storing
  )

  /** Steps of ubbd_queue_workfn. */
  datatype WorkerStep =
    | Check | PiFail | Fill(step: Pool.Action) | FillFailed | FillDone
    | Enlist | Publish(cmd: nat) | Unlist | Notify

  /** Steps of ubbd_queue_complete; a forced removal shares Mark to Advance for the requests it ends. */
  datatype CompleterStep =
    | Take | Fetch | Store | Mark | FreePages(step: Pool.Action) | End | Advance | Exit

  /** Steps of ubbd_dev_remove_queues and ubbd_queue_end_inflight_reqs. */
  datatype RemoverStep = Flush | FlushDone | Splice | Pop

  /** Steps of queue_stop and queue_start. */
  datatype ControlStep = Stop | StopFlush | StopFlushDone | StopCheck | Start

  /** The block layer, the backend, arriving callers and memory management. */
  datatype OutsideStep =
    | QueueRq(r: Req, op: Ring.Op, segs: nat) | PadDone(pos: nat) | Send(tid: nat)
    | Enter(a: AgentId) | Remove(a: AgentId, force: bool) | Memory(step: Pool.Action)

  datatype Action =
    | ByWorker(w: Work, worker: WorkerStep)
    | ByCompleter(a: AgentId, completer: CompleterStep)
    | ByRemover(a: AgentId, remover: RemoverStep)
    | ByControl(control: ControlStep)
    | ByOutside(outside: OutsideStep)

  function Init(g: Ring.Shape, dataPages: nat): State {
    State(g, Running, Ring.Init(), Pool.Init(dataPages), [], map[], map[], 0, {}, 0, map[], Idle, Pool.None, [],
          map[], map[], map[], map[], map[], {}, false, false)
  }

  // ---------------------------------------------------------------- lists

  /** list_del of one node. */
  function Without(xs: seq<Req>, r: Req): (ys: seq<Req>)
    ensures forall x :: x in ys <==> x in xs && x != r
  {
    if xs == [] then [] else
    var rest := Without(xs[1..], r);
    assert forall x :: x in xs <==> x == xs[0] || x in xs[1..];
    if xs[0] == r then rest else [xs[0]] + rest
  }

  lemma {:induction false} WithoutDistinct(xs: seq<Req>, r: Req)
    requires Pool.Distinct(xs)
    ensures Pool.Distinct(Without(xs, r))
  {
    if xs != [] {
      WithoutDistinct(xs[1..], r);
      var rest := Without(xs[1..], r);
      forall k | 0 <= k < |rest| ensures rest[k] != xs[0] { assert rest[k] in xs[1..]; }
    }
  }

  /** Request memory starts out zeroed. */
  function PduOf(pdu: map<Req, Pdu>, r: Req): Pdu {
    if r in pdu then pdu[r] else Pdu(Ring.Read, 0, 0, 0)
  }

  /** The search of fetch_inflight_req: the first listed request whose tid matches. */
  function Find(xs: seq<Req>, pdu: map<Req, Pdu>, tid: nat): (f: Pool.Option<Req>)
    ensures f.Some? ==> f.value in xs && PduOf(pdu, f.value).tid == tid
    ensures f.None? ==> forall x :: x in xs ==> PduOf(pdu, x).tid != tid
  {
    if xs == [] then Pool.None
    else if PduOf(pdu, xs[0]).tid == tid then Pool.Some(xs[0])
    else Find(xs[1..], pdu, tid)
  }

  function Count(m: map<Req, nat>, r: Req): nat { if r in m then m[r] else 0 }

  function Incr(m: map<Req, nat>, r: Req): map<Req, nat> { m[r := Count(m, r) + 1] }

  // ---------------------------------------------------------------- enabling conditions

  predicate WorkAt(s: State, w: Work, pc: WorkPc) { w in s.works && s.works[w].pc == pc }

  predicate AgentAt(s: State, a: AgentId, pc: Pc) { a in s.agents && s.agents[a].pc == pc }

  predicate IsWorking(s: State, a: AgentId, marked: bool) {
    a in s.agents && s.agents[a].pc.Working? && s.agents[a].pc.marked == marked
  }

  /** flush_workqueue returns once every work queued before the flush has returned. */
  ghost predicate Drained(s: State, limit: Work) {
    (forall w :: w in s.works ==> limit <= w) && (forall w :: w in s.notifying ==> limit <= w)
  }

  predicate FillStep(step: Pool.Action) {
    step.Begin? || step.Pass? || step.AllocPage? || step.DropHand? || step.Settle? || step.Undo?
  }

  ghost predicate WorkerCan(s: State, w: Work, step: WorkerStep)
    requires s.g.Ok()
  {
    match step
    case Check => WorkAt(s, w, Queued)
    case PiFail => WorkAt(s, w, Filling) && s.works[w].req !in s.pool.holders
    case Fill(p) =>
      WorkAt(s, w, Filling) && FillStep(p) && p.id == s.works[w].req && Pool.Enabled(s.pool, p)
      && (p.Begin? ==> p.want == PduOf(s.pdu, p.id).segs)
    case FillFailed => WorkAt(s, w, Filling) && Pool.Enabled(s.pool, Pool.Fail(s.works[w].req))
    case FillDone => WorkAt(s, w, Filling) && Pool.In(s.pool, s.works[w].req, Pool.Held)
    case Enlist => WorkAt(s, w, Ready) && s.lock.None?
    case Publish(cmd) => WorkAt(s, w, Enlisted) && Ring.CmdOk(s.g, cmd)
    case Unlist => WorkAt(s, w, RingFull) && s.lock.None?
    case Notify => w in s.notifying
  }

  ghost predicate CompleterCan(s: State, a: AgentId, step: CompleterStep) {
    match step
    case Take => AgentAt(s, a, Loop) && s.agents[a].kind.Completer? && s.cq != []
    case Fetch => a in s.agents && s.agents[a].pc.Took? && s.lock.None?
    case Store => a in s.agents && s.agents[a].pc.Storing?
    case Mark => IsWorking(s, a, false)
    case FreePages(p) => IsWorking(s, a, true) && (p.Free? || p.Gone?) && p.id == s.agents[a].pc.req
        && Pool.Enabled(s.pool, p)
    case End => IsWorking(s, a, true) && s.agents[a].pc.req !in s.pool.holders
    case Advance => AgentAt(s, a, Advancing)
    case Exit =>
      a in s.agents &&
      (match s.agents[a].kind
       case Completer => s.agents[a].pc.Loop? && s.cq == []
       case Remover(force) => if force then s.agents[a].pc.Loop? && s.agents[a].tmp == [] else s.agents[a].pc.Flushed?)
  }

  ghost predicate RemoverCan(s: State, a: AgentId, step: RemoverStep) {
    match step
    case Flush => AgentAt(s, a, Entered)
    case FlushDone => a in s.agents && s.agents[a].pc.FlushWait? && Drained(s, s.agents[a].pc.limit)
    case Splice => AgentAt(s, a, Flushed) && s.agents[a].kind == Remover(true) && s.lock.None?
    case Pop => AgentAt(s, a, Loop) && s.agents[a].kind.Remover? && s.agents[a].tmp != []
  }

  ghost predicate ControlCan(s: State, step: ControlStep) {
    match step
    case Stop => s.stopper.Idle? && s.status == Running
    case StopFlush => s.stopper.StopSet?
    case StopFlushDone => s.stopper.StopWait? && Drained(s, s.stopper.limit)
    case StopCheck => s.stopper.StopFlushed? && s.lock.None?
    case Start => s.stopper.Idle? && s.status != Removing
  }

  ghost predicate OutsideCan(s: State, step: OutsideStep) {
    match step
    case QueueRq(r, op, _) => r !in s.busy && !op.Pad?
    case PadDone(pos) => exists k ::
          0 <= k < |s.ring.entries| && s.ring.entries[k].pos == pos && s.ring.entries[k].op.Pad?
    case Send(tid) => tid != 0
    case Enter(a) => a !in s.agents && s.status != Removing
    case Remove(a, _) => a !in s.agents && s.stopper.Idle?
    case Memory(p) => (p.Fault? || p.SetReserve?) && Pool.Enabled(s.pool, p)
  }

  ghost predicate Enabled(s: State, a: Action)
    requires s.g.Ok()
  {
    match a
    case ByWorker(w, step) => WorkerCan(s, w, step)
    case ByCompleter(c, step) => CompleterCan(s, c, step)
    case ByRemover(c, step) => RemoverCan(s, c, step)
    case ByControl(step) => ControlCan(s, step)
    case ByOutside(step) => OutsideCan(s, step)
  }

  // ---------------------------------------------------------------- effects of the worker

  /** ubbd_queue_rq: clear the request, start it, queue its work. The status it read earlier may be stale. */
  function DoQueueRq(s: State, r: Req, op: Ring.Op, segs: nat): State
  {
    s.(pdu := s.pdu[r := Pdu(op, segs, 0, 0)],
       works := s.works[s.nextWork := Worker(r, Queued)], nextWork := s.nextWork + 1,
       busy := s.busy[r := Pending(s.nextWork)], starts := Incr(s.starts, r))
  }

  function SetWork(s: State, w: Work, pc: WorkPc, loc: Loc): State
    requires w in s.works
  {
    s.(works := s.works[w := s.works[w].(pc := pc)], busy := s.busy[s.works[w].req := loc])
  }

  /** blk_mq_requeue_request, after which the worker returns. */
  function Requeue(s: State, w: Work): State
    requires w in s.works
  {
    var r := s.works[w].req;
    s.(works := s.works - {w}, busy := s.busy - {r}, requeues := Incr(s.requeues, r))
  }

  /** blk_mq_end_request with -EIO, after which the worker returns. */
  function Refuse(s: State, w: Work): State
    requires w in s.works
  {
    var r := s.works[w].req;
    s.(works := s.works - {w}, busy := s.busy - {r}, ends := Incr(s.ends, r))
  }

  function DoCheck(s: State, w: Work): State
    requires w in s.works
  {
    if s.status == Running then SetWork(s, w, Filling, Preparing(w))
    else if s.status == Removing then Refuse(s, w)
    else Requeue(s, w)
  }

  function DoEnlist(s: State, w: Work): State
    requires w in s.works
  {
    SetWork(s, w, Enlisted, Listed(w)).(inflight := s.inflight + [s.works[w].req])
  }

  /** The request's entry is on the ring `v`: it is visible to the backend and its worker is done with it. */
  function PublishAt(s: State, w: Work, v: Ring.View, se: nat): State
    requires w in s.works
  {
    var r := s.works[w].req;
    s.(ring := v, pdu := s.pdu[r := PduOf(s.pdu, r).(tid := v.tid, se := se)],
       works := s.works - {w}, notifying := s.notifying + {w},
       busy := s.busy[r := Published], pub := s.pub[v.tid := r])
  }

  /** The cmdr_lock section. */
  function DoPublish(s: State, w: Work, cmd: nat): State
    requires s.g.Ok() && w in s.works
  {
    var r := s.works[w].req;
    if !Ring.SpaceEnough(s.g, s.ring.head, s.ring.tail, cmd) then
      s.(works := s.works[w := Worker(r, RingFull)])
    else
      var v := Ring.Submit(s.g, s.ring, cmd, PduOf(s.pdu, r).op);
      PublishAt(s, w, v, v.entries[|v.entries| - 1].pos)
  }

  /** The ring-full path: off the list and requeued, with the pages left behind. */
  function DoUnlist(s: State, w: Work): State
    requires w in s.works
  {
    var r := s.works[w].req;
    Requeue(s, w).(inflight := Without(s.inflight, r), pool := Pool.Abandon(s.pool, r))
  }

  // ---------------------------------------------------------------- effects of completers and removals

  function SetPc(s: State, a: AgentId, pc: Pc): State
    requires a in s.agents
  {
    s.(agents := s.agents[a := s.agents[a].(pc := pc)])
  }

  /** list_del, then the status read: a drained stopping queue keeps the lock until the store. */
  function TakeOff(s: State, a: AgentId, r: Req, rest: seq<Req>): State
    requires a in s.agents
  {
    var pc := if s.status == Stopping && rest == [] then Storing(r) else Working(r, false);
    s.(inflight := rest, busy := s.busy[r := Fetched(a)],
       agents := s.agents[a := s.agents[a].(pc := pc)],
       lock := if pc.Storing? then Pool.Some(a) else s.lock)
  }

  function DoFetch(s: State, a: AgentId): State
    requires a in s.agents && s.agents[a].pc.Took?
  {
    var f := Find(s.inflight, s.pdu, s.agents[a].pc.tid);
    if f.None? then SetPc(s, a, Loop) else TakeOff(s, a, f.value, Without(s.inflight, f.value))
  }

  function DoStore(s: State, a: AgentId): State
    requires a in s.agents && s.agents[a].pc.Storing?
  {
    SetPc(s, a, Working(s.agents[a].pc.req, false)).(status := Stopped, lock := Pool.None)
  }

  function DoMark(s: State, a: AgentId): State
    requires a in s.agents && s.agents[a].pc.Working?
  {
    var r := s.agents[a].pc.req;
    var p := PduOf(s.pdu, r);
    SetPc(s, a, Working(r, true)).(
      ring := s.ring.(entries := Ring.MarkDone(s.ring.entries, p.se)),
      busy := s.busy[r := Marked(a)], pub := s.pub - {p.tid})
  }

  /** blk_mq_end_request. */
  function DoEnd(s: State, a: AgentId): State
    requires a in s.agents && s.agents[a].pc.Working?
  {
    var r := s.agents[a].pc.req;
    SetPc(s, a, Advancing).(busy := s.busy - {r}, ends := Incr(s.ends, r))
  }

  function DoRemove(s: State, a: AgentId, force: bool): State
  {
    s.(status := Removing, agents := s.agents[a := Agent(Remover(force), Entered, [])], raced := s.raced
        || (force && s.lock.Some?))
  }

  function DoSplice(s: State, a: AgentId): State
    requires a in s.agents
  {
    s.(agents := s.agents[a := s.agents[a].(pc := Loop, tmp := s.inflight)], inflight := [],
       busy := map r | r in s.busy :: if r in s.inflight then Spliced(a) else s.busy[r],
       sealed := true)
  }

  function DoPop(s: State, a: AgentId): State
    requires a in s.agents && s.agents[a].tmp != []
  {
    var ag := s.agents[a];
    s.(agents := s.agents[a := ag.(pc := Working(ag.tmp[0], false), tmp := ag.tmp[1..])],
        busy := s.busy[ag.tmp[0] := Fetched(a)])
  }

  ghost function WorkerNext(s: State, w: Work, step: WorkerStep): State
    requires s.g.Ok() && WorkerCan(s, w, step)
  {
    match step
    case Check => DoCheck(s, w)
    case PiFail => Requeue(s, w)
    case Fill(p) => s.(pool := Pool.Next(s.pool, p))
    case FillFailed => Requeue(s, w).(pool := Pool.Next(s.pool, Pool.Fail(s.works[w].req)))
    case FillDone => SetWork(s, w, Ready, Prepared(w))
    case Enlist => DoEnlist(s, w)
    case Publish(cmd) => DoPublish(s, w, cmd)
    case Unlist => DoUnlist(s, w)
    case Notify => s.(notifying := s.notifying - {w}, events := s.events + 1)
  }

  ghost function CompleterNext(s: State, a: AgentId, step: CompleterStep): State
    requires CompleterCan(s, a, step)
  {
    match step
    case Take => SetPc(s, a, Took(s.cq[0])).(cq := s.cq[1..])
    case Fetch => DoFetch(s, a)
    case Store => DoStore(s, a)
    case Mark => DoMark(s, a)
    case FreePages(p) => s.(pool := Pool.Next(s.pool, p))
    case End => DoEnd(s, a)
    case Advance => SetPc(s, a, Loop).(ring := Ring.Advance(s.ring))
    case Exit => s.(agents := s.agents - {a})
  }

  ghost function RemoverNext(s: State, a: AgentId, step: RemoverStep): State
    requires RemoverCan(s, a, step)
  {
    match step
    case Flush => SetPc(s, a, FlushWait(s.nextWork))
    case FlushDone => SetPc(s, a, Flushed)
    case Splice => DoSplice(s, a)
    case Pop => DoPop(s, a)
  }

  ghost function ControlNext(s: State, step: ControlStep): State
    requires ControlCan(s, step)
  {
    match step
    case Stop => s.(status := Stopping, stopper := StopSet)
    case StopFlush => s.(stopper := StopWait(s.nextWork))
    case StopFlushDone => s.(stopper := StopFlushed)
    case StopCheck => s.(status := if s.inflight == [] then Stopped else s.status, stopper := Idle)
    case Start => s.(status := Running)
  }

  ghost function OutsideNext(s: State, step: OutsideStep): State
    requires OutsideCan(s, step)
  {
    match step
    case QueueRq(r, op, segs) => DoQueueRq(s, r, op, segs)
    case PadDone(pos) => s.(ring := s.ring.(entries := Ring.MarkDone(s.ring.entries, pos)))
    case Send(tid) => s.(cq := s.cq + [tid], sent := s.sent + {tid})
    case Enter(a) => s.(agents := s.agents[a := Agent(Completer, Loop, [])])
    case Remove(a, force) => DoRemove(s, a, force)
    case Memory(p) => s.(pool := Pool.Next(s.pool, p))
  }

  ghost function Next(s: State, a: Action): State
    requires s.g.Ok() && Enabled(s, a)
  {
    match a
    case ByWorker(w, step) => WorkerNext(s, w, step)
    case ByCompleter(c, step) => CompleterNext(s, c, step)
    case ByRemover(c, step) => RemoverNext(s, c, step)
    case ByControl(step) => ControlNext(s, step)
    case ByOutside(step) => OutsideNext(s, step)
  }
}
