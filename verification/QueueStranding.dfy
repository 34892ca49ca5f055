/**
 The pool inside the queue. Every action of the queue runs at most one critical section of the pool, so
 what the pool guarantees carries over; and the bits a queue loses are exactly those a full ring cost it.
 */
module QueueStranding {
  import Ring
  import Pool
  import opened Queue
  import opened QueueProof
  import opened QueueTheorems

  function WorkerPool(s: State, w: Work, step: WorkerStep): Pool.Option<Pool.Action> {
    if step.Fill? then Pool.Some(step.step)
    else if step.FillFailed? && w in s.works then Pool.Some(Pool.Fail(s.works[w].req))
    else if step.Unlist? && w in s.works then Pool.Some(Pool.Strand(s.works[w].req))
    else Pool.None
  }

  /** The critical section of the pool that an action runs, if any. */
  function PoolStep(s: State, a: Action): Pool.Option<Pool.Action> {
    if a.ByWorker? then WorkerPool(s, a.w, a.worker)
    else if a.ByCompleter? && a.completer.FreePages? then Pool.Some(a.completer.step)
    else if a.ByOutside? && a.outside.Memory? then Pool.Some(a.outside.step)
    else Pool.None
  }

  ghost predicate Follows(p: Pool.State, step: Pool.Option<Pool.Action>, q: Pool.State) {
    if step.None? then q == p else Pool.Enabled(p, step.value) && q == Pool.Next(p, step.value)
  }

  lemma WorkerFollows(s: State, w: Work, step: WorkerStep)
    requires s.g.Ok() && WorkerCan(s, w, step)
    requires step.Unlist? ==> Pool.In(s.pool, s.works[w].req, Pool.Held)
    ensures Follows(s.pool, WorkerPool(s, w, step), WorkerNext(s, w, step).pool)
  {
    match step
    case Check => CheckFrame(s, w);
    case PiFail => ReturnFrame(s, w);
    case Fill(_) =>
    case FillFailed =>
    case FillDone => PhaseFrame(s, w, Ready, Prepared(w));
    case Enlist => EnlistFrame(s, w);
    case Publish(cmd) => PoolPublishStep(s, w, cmd);
    case Unlist => UnlistFrame(s, w);
    case Notify =>
  }

  lemma GoodWorkerFollows(s: State, w: Work, step: WorkerStep)
    requires Good(s) && WorkerCan(s, w, step)
    ensures Follows(s.pool, PoolStep(s, ByWorker(w, step)), Next(s, ByWorker(w, step)).pool)
  {
    if step.Unlist? { WorkerNeeds(s, w); }
    WorkerFollows(s, w, step);
  }

  lemma CompleterFollows(s: State, a: AgentId, step: CompleterStep)
    requires CompleterCan(s, a, step)
    ensures Follows(s.pool, PoolStep(s, ByCompleter(a, step)), CompleterNext(s, a, step).pool)
  {
    match step
    case Take =>
    case Fetch => FetchFrame(s, a);
    case Store =>
    case Mark =>
    case FreePages(_) =>
    case End =>
    case Advance =>
    case Exit =>
  }

  lemma RemoverFollows(s: State, a: AgentId, step: RemoverStep)
    requires RemoverCan(s, a, step)
    ensures RemoverNext(s, a, step).pool == s.pool
  {
    RemoverFrame(s, a, step);
  }

  lemma ControlFollows(s: State, step: ControlStep)
    requires ControlCan(s, step)
    ensures ControlNext(s, step).pool == s.pool
  {
  }

  lemma OutsideFollows(s: State, step: OutsideStep)
    requires OutsideCan(s, step)
    ensures Follows(s.pool, PoolStep(s, ByOutside(step)), OutsideNext(s, step).pool)
  {
    match step
    case QueueRq(r, op, segs) =>
    case PadDone(_) =>
    case Send(_) =>
    case Enter(_) =>
    case Remove(_, _) =>
    case Memory(_) =>
  }

  lemma AgentFollows(s: State, a: Action)
    requires s.g.Ok() && Enabled(s, a) && !a.ByWorker?
    ensures Follows(s.pool, PoolStep(s, a), Next(s, a).pool)
  {
    match a
    case ByCompleter(c, step) => CompleterFollows(s, c, step);
    case ByRemover(c, step) => RemoverFollows(s, c, step);
    case ByControl(step) => ControlFollows(s, step);
    case ByOutside(step) => OutsideFollows(s, step);
  }

  /** Every action of the queue is one critical section of its pool or none. */
  lemma PoolFollows(s: State, a: Action)
    requires Good(s) && Enabled(s, a)
    ensures Follows(s.pool, PoolStep(s, a), Next(s, a).pool)
  {
    if a.ByWorker? { GoodWorkerFollows(s, a.w, a.worker); } else { AgentFollows(s, a); }
  }

  // ---------------------------------------------------------------- what a full ring costs

  /** A worker that found no ring space gives up a request that holds index `i`. */
  predicate RingFullDrops(s: State, a: Action, i: nat) {
    a.ByWorker? && a.worker.Unlist? && a.w in s.works
    && s.works[a.w].req in s.pool.holders && i in s.pool.holders[s.works[a.w].req].pis
  }

  ghost predicate EverDropped(s: State, run: seq<Action>, i: nat)
    requires RunOk(s, run)
    decreases |run|
  {
    run != [] && (RingFullDrops(s, run[0], i) || EverDropped(Next(s, run[0]), run[1..], i))
  }

  lemma DropsMatch(s: State, a: Action, i: nat)
    requires s.g.Ok() && Enabled(s, a)
    ensures RingFullDrops(s, a, i) <==> PoolStep(s, a).Some? && Pool.Drops(s.pool, PoolStep(s, a).value, i)
  {
  }

  lemma LostStep(s: State, a: Action, i: nat)
    requires Good(s) && Enabled(s, a)
    ensures Pool.Unheld(Next(s, a).pool, i) <==> Pool.Unheld(s.pool, i) || RingFullDrops(s, a, i)
  {
    PoolFollows(s, a);
    DropsMatch(s, a, i);
    if PoolStep(s, a).Some? { PoolLost(s.pool, PoolStep(s, a).value, i); }
  }

  lemma PoolLost(p: Pool.State, step: Pool.Action, i: nat)
    requires Pool.Inv(p) && Pool.Enabled(p, step)
    ensures Pool.Unheld(Pool.Next(p, step), i) <==> Pool.Unheld(p, i) || Pool.Drops(p, step, i)
  {
    Pool.StepInv(p, step);
    Pool.UnheldIsStranded(p, i);
    Pool.UnheldIsStranded(Pool.Next(p, step), i);
    Pool.StrandedStep(p, step, i);
  }

  lemma {:induction false} LostOverRun(s: State, run: seq<Action>, i: nat)
    requires Good(s) && RunOk(s, run) && !Final(s, run).raced
    ensures Pool.Unheld(Final(s, run).pool, i) <==> Pool.Unheld(s.pool, i) || EverDropped(s, run, i)
    decreases |run|
  {
    if run != [] {
      var t := Next(s, run[0]);
      if t.raced { RacedStays(t, run[1..]); }
      StepGood(s, run[0]);
      LostStep(s, run[0], i);
      LostOverRun(t, run[1..], i);
    }
  }

  /**
   Over every run of a fresh queue: at the end a bit is set with no request holding it exactly when,
   somewhere on the way, a worker on a full ring gave up a request that held it.
   */
  lemma BitsLostToFullRing(g: Ring.Shape, n: nat, run: seq<Action>, i: nat)
    requires RunOk(Init(g, n), run) && !Final(Init(g, n), run).raced
    ensures Pool.Unheld(Final(Init(g, n), run).pool, i) <==> EverDropped(Init(g, n), run, i)
  {
    InitGood(g, n);
    LostOverRun(Init(g, n), run, i);
  }

  /** Such a bit is lost for good: no continuation clears it or gives it to a request. */
  lemma LostForever(s: State, run: seq<Action>, i: nat)
    requires Reachable(s) && Pool.Unheld(s.pool, i) && RunOk(s, run) && !Final(s, run).raced
    ensures Pool.Unheld(Final(s, run).pool, i)
  {
    ReachableGood(s);
    LostOverRun(s, run, i);
  }

  /** Every other set bit is held by one started request and has a page. */
  lemma OtherBitsAreHeld(s: State, i: nat)
    requires Reachable(s) && i in s.pool.core.bits
    ensures i in s.pool.core.xa
    ensures Pool.Unheld(s.pool, i) || exists r :: r in s.busy && r in s.pool.holders && i in s.pool.holders[r].pis
  {
    ReachableGood(s);
    if r: Req :| r in s.pool.holders && i in s.pool.holders[r].pis {
      assert LinkOk(s.pool.holders, s.busy, r);
    }
  }
}
