/**
 What a forced removal is worth when a completer is about to write STOPPED. The write undoes the
 removal's status, the queue can be started again, and workers and the removal then meet on the
 inflight list: every guarantee that rests on the flush fails, and only then.
 */
module QueueRace {
  import Ring
  import Pool
  import opened Queue
  import opened QueueOwnership
  import opened QueueTids
  import opened QueueGates
  import opened QueueProof
  import opened QueueTheorems
  import opened QueueSteps

  // ---------------------------------------------------------------- every worker can be made to return

  function Hands(p: Pool.State, r: Req): nat { if r in p.hands then 1 else 0 }

  /** The next step of a preparation that has begun, on its way to success or failure. */
  function PrepStep(p: Pool.State, r: Req): Pool.Action
    requires r in p.holders
  {
    var h := p.holders[r];
    if r in p.hands && (h.mode == Pool.Undoing || Pool.Filled(p, r)) then Pool.DropHand(r)
    else if h.mode == Pool.Undoing then Pool.Undo(r)
    else if h.mode == Pool.NeedPage then Pool.AllocPage(r, Pool.None)
    else if Pool.Filled(p, r) then Pool.Settle(r)
    else Pool.Pass(r, true)
  }

  /** How far the preparation of `r` is from its end. */
  function PrepRank(p: Pool.State, r: Req): nat
    requires r in p.holders
  {
    var h := p.holders[r];
    var need := if |h.pis| < h.want then h.want - |h.pis| else 0;
    match h.mode
    case Undoing => |h.pis| + Hands(p, r) + 1
    case NeedPage => h.want + 3
    case Filling => h.want + 6 + need + Hands(p, r)
    case _ => 4
  }

  predicate InPrep(p: Pool.State, r: Req) {
    r in p.holders
    && (p.holders[r].mode == Pool.Filling || p.holders[r].mode == Pool.NeedPage
        || (p.holders[r].mode == Pool.Undoing && (r in p.hands || p.holders[r].pis != [])))
  }

  lemma PassRank(p: Pool.State, r: Req)
    requires Pool.Modes(p) && Pool.Enabled(p, Pool.Pass(r, true))
    ensures var q := Pool.Next(p, Pool.Pass(r, true)); r in q.holders && PrepRank(q, r) < PrepRank(p, r)
  {
    assert Pool.HolderOk(p, r);
    var c := Pool.Claim(p.core, Pool.Hand(p, r), true);
  }

  lemma PrepMoves(p: Pool.State, r: Req)
    requires Pool.Modes(p) && InPrep(p, r)
    ensures FillStep(PrepStep(p, r)) && PrepStep(p, r).id == r && Pool.Enabled(p, PrepStep(p, r))
            && !PrepStep(p, r).Begin?
    ensures var q := Pool.Next(p, PrepStep(p, r)); r in q.holders && PrepRank(q, r) < PrepRank(p, r)
  {
    assert Pool.HolderOk(p, r);
    if PrepStep(p, r).Pass? { PassRank(p, r); }
  }

  /** The part of the invariant that a lost removal does not break. */
  ghost predicate Sound(s: State) { Pool.Inv(s.pool) && Own(BooksOf(s)) && Linked(s) }

  lemma SoundWorker(s: State, w: Work, step: WorkerStep)
    requires Sound(s) && WorkerCan(s, w, step)
    ensures Sound(WorkerNext(s, w, step))
  {
    OwnFacts(s, w, 0);
    if step.Unlist? { assert LinkOk(s.pool.holders, s.busy, s.works[w].req); }
    PoolWorker(s, w, step);
    OwnWorker(s, w, step);
    LinkWorker(s, w, step);
  }

  /** What a worker's steps leave alone. */
  predicate Aside(s: State, t: State) {
    && t.g == s.g && t.status == s.status && t.stopper == s.stopper && t.lock == s.lock
    && t.agents == s.agents && t.nextWork == s.nextWork
  }

  lemma AsidePublishAt(s: State, w: Work, v: Ring.View, se: nat)
    requires w in s.works
    ensures Aside(s, PublishAt(s, w, v, se)) && PublishAt(s, w, v, se).works == s.works - {w}
  {
  }

  lemma AsidePublish(s: State, w: Work, cmd: nat)
    requires s.g.Ok() && w in s.works
    ensures var t := DoPublish(s, w, cmd);
            Aside(s, t) && (t.works == s.works - {w} || t.works == s.works[w := Worker(s.works[w].req, RingFull)])
  {
    if Ring.SpaceEnough(s.g, s.ring.head, s.ring.tail, cmd) {
      var v := Ring.Submit(s.g, s.ring, cmd, PduOf(s.pdu, s.works[w].req).op);
      AsidePublishAt(s, w, v, v.entries[|v.entries| - 1].pos);
    }
  }

  lemma AsideWorker(s: State, w: Work, step: WorkerStep)
    requires WorkerCan(s, w, step)
    ensures Aside(s, WorkerNext(s, w, step))
  {
    match step
    case Check => CheckFrame(s, w);
    case PiFail => ReturnFrame(s, w);
    case Fill(_) =>
    case FillFailed => ReturnFrame(s, w);
    case FillDone => PhaseFrame(s, w, Ready, Prepared(w));
    case Enlist => EnlistFrame(s, w);
    case Publish(cmd) => AsidePublish(s, w, cmd);
    case Unlist => UnlistFrame(s, w);
    case Notify =>
  }

  lemma WorkGone(s: State, w: Work)
    requires w in s.works
    ensures Requeue(s, w).works == s.works - {w} && Refuse(s, w).works == s.works - {w}
    ensures DoUnlist(s, w).works == s.works - {w}
  {
  }

  /** Steps with which a worker of a queue that is not running returns. */
  lemma WorkReturns(s: State, w: Work, step: WorkerStep)
    requires WorkerCan(s, w, step) && (step.Check? ==> s.status != Running)
    requires step.Check? || step.PiFail? || step.FillFailed? || step.Unlist?
    ensures WorkerNext(s, w, step).works == s.works - {w}
  {
    WorkGone(s, w);
    match step
    case Check =>
    case PiFail =>
    case FillFailed =>
    case Unlist =>
  }

  lemma WorkAdvances(s: State, w: Work, step: WorkerStep)
    requires WorkerCan(s, w, step) && (step.FillDone? || step.Enlist?)
    ensures WorkerNext(s, w, step).works == s.works[w := Worker(s.works[w].req,
            if step.FillDone? then Ready else Enlisted)]
  {
  }

  lemma Dropped<K, V>(m: map<K, V>, k: K, v: V)
    ensures m[k := v] - {k} == m - {k}
  {
  }

  /** A queue that is not running, with removal `a` waiting for the works queued so far. */
  ghost predicate Draining(s: State, a: AgentId, st: Status) {
    && Sound(s) && s.status == st && st != Running && s.stopper.Idle? && s.lock.None?
    && a in s.agents && s.agents[a] == Agent(Remover(true), FlushWait(s.nextWork), [])
  }

  /** Draining, at the end of a run from `o`. */
  ghost predicate DrainingFrom(o: State, s: State, a: AgentId, st: Status) { Leads(o, s) && Draining(s, a, st) }

  lemma Move(o: State, s: State, a: AgentId, st: Status, w: Work, step: WorkerStep) returns (t: State)
    requires DrainingFrom(o, s, a, st) && WorkerCan(s, w, step)
    ensures t == WorkerNext(s, w, step) && DrainingFrom(o, t, a, st)
  {
    t := WorkerNext(s, w, step);
    SoundWorker(s, w, step);
    AsideWorker(s, w, step);
    GoWorker(o, s, w, step);
  }

  lemma MoveChecked(o: State, s: State, a: AgentId, st: Status, w: Work) returns (t: State)
    requires DrainingFrom(o, s, a, st) && WorkAt(s, w, Queued)
    ensures DrainingFrom(o, t, a, st) && t.works == s.works - {w}
  {
    WorkReturns(s, w, Check);
    t := Move(o, s, a, st, w, Check);
  }

  lemma MoveUnlisted(o: State, s: State, a: AgentId, st: Status, w: Work) returns (t: State)
    requires DrainingFrom(o, s, a, st) && WorkAt(s, w, RingFull)
    ensures DrainingFrom(o, t, a, st) && t.works == s.works - {w}
  {
    WorkReturns(s, w, Unlist);
    t := Move(o, s, a, st, w, Unlist);
  }

  lemma SmallestCommand(g: Ring.Shape)
    ensures Ring.CmdOk(g, g.align)
  {
    Ring.ModUnique(g.align, 1, 0, g.align);
  }

  lemma MovePublished(o: State, s: State, a: AgentId, st: Status, w: Work) returns (t: State)
    requires DrainingFrom(o, s, a, st) && WorkAt(s, w, Enlisted)
    ensures DrainingFrom(o, t, a, st) && t.works == s.works - {w}
  {
    SmallestCommand(s.g);
    AsidePublish(s, w, s.g.align);
    Dropped(s.works, w, Worker(s.works[w].req, RingFull));
    var u := Move(o, s, a, st, w, Publish(s.g.align));
    if u.works == s.works - {w} {
      t := u;
    } else {
      t := MoveUnlisted(o, u, a, st, w);
    }
  }

  lemma MoveEnlisted(o: State, s: State, a: AgentId, st: Status, w: Work) returns (t: State)
    requires DrainingFrom(o, s, a, st) && WorkAt(s, w, Ready)
    ensures DrainingFrom(o, t, a, st) && t.works == s.works - {w}
  {
    WorkAdvances(s, w, Enlist);
    Dropped(s.works, w, Worker(s.works[w].req, Enlisted));
    var u := Move(o, s, a, st, w, Enlist);
    t := MovePublished(o, u, a, st, w);
  }

  lemma MoveHeld(o: State, s: State, a: AgentId, st: Status, w: Work) returns (t: State)
    requires DrainingFrom(o, s, a, st) && WorkAt(s, w, Filling) && Pool.In(s.pool, s.works[w].req, Pool.Held)
    ensures DrainingFrom(o, t, a, st) && t.works == s.works - {w}
  {
    WorkAdvances(s, w, FillDone);
    Dropped(s.works, w, Worker(s.works[w].req, Ready));
    var u := Move(o, s, a, st, w, FillDone);
    t := MoveEnlisted(o, u, a, st, w);
  }

  lemma MoveFailed(o: State, s: State, a: AgentId, st: Status, w: Work, step: WorkerStep) returns (t: State)
    requires DrainingFrom(o, s, a, st) && WorkAt(s, w, Filling) && WorkerCan(s, w, step)
             && (step.PiFail? || step.FillFailed?)
    ensures DrainingFrom(o, t, a, st) && t.works == s.works - {w}
  {
    WorkReturns(s, w, step);
    t := Move(o, s, a, st, w, step);
  }

  /** A preparation is not giving pages back on completion. */
  lemma PrepModes(s: State, w: Work)
    requires Sound(s) && WorkAt(s, w, Filling)
    ensures Pool.Modes(s.pool)
    ensures s.works[w].req in s.pool.holders ==> s.pool.holders[s.works[w].req].mode != Pool.Freeing
  {
    assert WorkOk(BooksOf(s), w);
    assert LinkOk(s.pool.holders, s.busy, s.works[w].req);
  }

  lemma MayFail(s: State, w: Work)
    requires WorkAt(s, w, Filling) && Pool.In(s.pool, s.works[w].req, Pool.Undoing) && !InPrep(s.pool, s.works[w].req)
    ensures WorkerCan(s, w, FillFailed)
  {
  }

  lemma MoveOn(o: State, s: State, a: AgentId, st: Status, w: Work) returns (t: State)
    requires DrainingFrom(o, s, a, st) && WorkAt(s, w, Filling) && InPrep(s.pool, s.works[w].req)
    ensures var r := s.works[w].req;
            DrainingFrom(o, t, a, st) && t.works == s.works && r in t.pool.holders
                && PrepRank(t.pool, r) < PrepRank(s.pool, r)
  {
    PrepModes(s, w);
    PrepMoves(s.pool, s.works[w].req);
    t := Move(o, s, a, st, w, Fill(PrepStep(s.pool, s.works[w].req)));
  }

  lemma {:induction false} MovePrepared(o: State, s: State, a: AgentId, st: Status, w: Work) returns (t: State)
    requires DrainingFrom(o, s, a, st) && WorkAt(s, w, Filling)
    ensures DrainingFrom(o, t, a, st) && t.works == s.works - {w}
    decreases if s.works[w].req in s.pool.holders then PrepRank(s.pool, s.works[w].req) else 0
  {
    var r := s.works[w].req;
    PrepModes(s, w);
    if r !in s.pool.holders {
      t := MoveFailed(o, s, a, st, w, PiFail);
    } else if InPrep(s.pool, r) {
      var u := MoveOn(o, s, a, st, w);
      t := MovePrepared(o, u, a, st, w);
    } else if s.pool.holders[r].mode == Pool.Undoing {
      MayFail(s, w);
      t := MoveFailed(o, s, a, st, w, FillFailed);
    } else {
      t := MoveHeld(o, s, a, st, w);
    }
  }

  /** Whatever it is doing, a worker can be made to return. */
  lemma MoveAny(o: State, s: State, a: AgentId, st: Status, w: Work) returns (t: State)
    requires DrainingFrom(o, s, a, st) && w in s.works
    ensures DrainingFrom(o, t, a, st) && t.works == s.works - {w}
  {
    match s.works[w].pc
    case Queued => t := MoveChecked(o, s, a, st, w);
    case Filling => t := MovePrepared(o, s, a, st, w);
    case Ready => t := MoveEnlisted(o, s, a, st, w);
    case Enlisted => t := MovePublished(o, s, a, st, w);
    case RingFull => t := MoveUnlisted(o, s, a, st, w);
  }

  lemma {:induction false} DrainWorks(o: State, s: State, a: AgentId, st: Status) returns (t: State)
    requires DrainingFrom(o, s, a, st)
    ensures DrainingFrom(o, t, a, st) && t.works == map[]
    decreases |s.works|
  {
    if s.works == map[] { return s; }
    var w :| w in s.works;
    var u := MoveAny(o, s, a, st, w);
    Pool.RemoveSize(s.works, w);
    t := DrainWorks(o, u, a, st);
  }

  lemma {:induction false} DrainNotify(o: State, s: State, a: AgentId, st: Status) returns (t: State)
    requires DrainingFrom(o, s, a, st) && s.works == map[]
    ensures DrainingFrom(o, t, a, st) && t.works == map[] && t.notifying == {}
    decreases |s.notifying|
  {
    if s.notifying == {} { return s; }
    var w :| w in s.notifying;
    var u := Move(o, s, a, st, w, Notify);
    t := DrainNotify(o, u, a, st);
  }

  // ---------------------------------------------------------------- the removal is undone and the queue started

  lemma SoundAfterRemoval(s: State, a: AgentId)
    requires Good(s) && a !in s.agents
    ensures Sound(DoRemove(s, a, true))
  {
    OwnRemoveStep(s, a, true);
  }

  lemma SoundPc(s: State, t: State, a: AgentId, pc: Pc)
    requires Sound(s) && a in s.agents
    requires BooksOf(t) == BooksOf(s).(agents := s.agents[a := s.agents[a].(pc := pc)]) && t.pool == s.pool
    requires var was := s.agents[a].pc;
             || (was.Storing? && pc == Working(was.req, false))
             || (!Holding(was) && !Holding(pc) && (Flushing(was) <==> Flushing(pc)) && !pc.Took?)
    ensures Sound(t)
  {
    OwnSetPc(BooksOf(s), a, pc);
  }

  /** The completer writes STOPPED over REMOVING. */
  lemma LateStore(o: State, s: State, c: AgentId) returns (t: State)
    requires Leads(o, s) && Sound(s) && c in s.agents && s.agents[c].pc.Storing?
    ensures Leads(o, t) && Sound(t) && t == DoStore(s, c)
  {
    GoCompleter(o, s, c, Store);
    t := DoStore(s, c);
    SoundPc(s, t, c, Working(s.agents[c].pc.req, false));
  }

  /** The removal starts its flush. */
  lemma LateFlush(o: State, s: State, a: AgentId) returns (t: State)
    requires Leads(o, s) && Sound(s) && a in s.agents && s.agents[a].pc == Entered
    ensures Leads(o, t) && Sound(t) && t == SetPc(s, a, FlushWait(s.nextWork))
  {
    assert AgentAt(s, a, Entered);
    GoRemover(o, s, a, Flush);
    t := SetPc(s, a, FlushWait(s.nextWork));
    SoundPc(s, t, a, FlushWait(s.nextWork));
  }

  lemma StorerHoldsLock(s: State)
    requires Gates(GateOf(s)) && s.lock.Some?
    ensures s.lock.value in s.agents && s.agents[s.lock.value].pc.Storing?
  {
  }

  lemma RaceBegins(s: State, a: AgentId, c: AgentId) returns (t: State)
    requires Sound(DoRemove(s, a, true)) && OutsideCan(s, Remove(a, true)) && c in s.agents && s.agents[c].pc.Storing?
    ensures DrainingFrom(DoRemove(s, a, true), t, a, Stopped)
  {
    var o := DoRemove(s, a, true);
    LeadsHere(o);
    var s1 := LateStore(o, o, c);
    t := LateFlush(o, s1, a);
  }

  /** Removal `a` has flushed a queue that runs again. */
  ghost predicate Revived(s: State, a: AgentId) {
    && Sound(s) && s.status == Running && s.lock.None? && s.works == map[]
    && a in s.agents && s.agents[a] == Agent(Remover(true), Flushed, [])
  }

  lemma FinishFlush(o: State, s: State, a: AgentId, st: Status) returns (t: State)
    requires DrainingFrom(o, s, a, st) && s.works == map[] && s.notifying == {}
    ensures Leads(o, t) && Sound(t) && t == SetPc(s, a, Flushed)
  {
    GoRemover(o, s, a, FlushDone);
    t := SetPc(s, a, Flushed);
    SoundPc(s, t, a, Flushed);
  }

  lemma Restart(o: State, s: State) returns (t: State)
    requires Leads(o, s) && Sound(s) && s.status == Stopped && s.stopper.Idle?
    ensures Leads(o, t) && Sound(t) && t == s.(status := Running)
  {
    GoControl(o, s, Start);
    t := s.(status := Running);
    assert BooksOf(t) == BooksOf(s);
  }

  lemma Revive(s: State, a: AgentId) returns (t: State)
    requires Good(s) && OutsideCan(s, Remove(a, true)) && s.lock.Some?
    ensures Leads(DoRemove(s, a, true), t) && Revived(t, a)
  {
    var o := DoRemove(s, a, true);
    SoundAfterRemoval(s, a);
    StorerHoldsLock(s);
    var s1 := RaceBegins(s, a, s.lock.value);
    var s2 := DrainWorks(o, s1, a, Stopped);
    var s3 := DrainNotify(o, s2, a, Stopped);
    var s4 := FinishFlush(o, s3, a, Stopped);
    t := Restart(o, s4);
  }

  /** A request the queue has never seen. */
  lemma NewRequest(s: State) returns (r: Req)
    ensures r !in s.busy && r !in s.starts && r !in s.ends && r !in s.requeues
  {
    var seen := s.busy.Keys + s.starts.Keys + s.ends.Keys + s.requeues.Keys;
    r := Pool.Fresh(|seen| + 1, seen);
  }

  /** The requests of a list are distinct and hold their pages. */
  ghost predicate Held(p: Pool.State, xs: seq<Req>) { Pool.Distinct(xs) && forall q ::
        q in xs ==> Pool.In(p, q, Pool.Held) }

  lemma HeldGrows(p: Pool.State, xs: seq<Req>, r: Req)
    requires Held(p, xs) && r !in xs
    ensures Held(p.(holders := p.holders[r := NO_PAGES]), xs)
  {
  }

  /** What is known of requests that are not started, and of those on the list when no worker is active. */
  lemma RevivedList(s: State, a: AgentId, r: Req)
    requires Revived(s, a) && r !in s.busy
    ensures r !in s.pool.holders && r !in s.pool.hands && r !in s.inflight
    ensures Held(s.pool, s.inflight)
  {
    assert LinkOk(s.pool.holders, s.busy, r);
    ListIsPublished(BooksOf(s));
    forall q | q in s.inflight ensures Pool.In(s.pool, q, Pool.Held) { assert LinkOk(s.pool.holders, s.busy, q); }
  }

  /** A new request `r` is ready to be listed while the removal is past its flush. */
  ghost predicate Armed(s: State, a: AgentId, w: Work, r: Req) {
    && s.status == Running && s.lock.None? && a in s.agents && s.agents[a] == Agent(Remover(true), Flushed, [])
    && s.works == map[w := Worker(r, Ready)] && r in s.busy && s.busy[r] == Prepared(w) && PduOf(s.pdu, r).tid == 0
    && Count(s.starts, r) == 1 && Count(s.ends, r) == 0 && Count(s.requeues, r) == 0
    && Pool.In(s.pool, r, Pool.Held) && r !in s.inflight
    && Held(s.pool, s.inflight)
  }

  lemma Arm(o: State, s: State, a: AgentId, r: Req) returns (t: State, w: Work)
    requires Leads(o, s) && s.status == Running && s.lock.None? && s.works == map[]
    requires a in s.agents && s.agents[a] == Agent(Remover(true), Flushed, [])
    requires r !in s.busy && r !in s.starts && r !in s.ends && r !in s.requeues
    requires r !in s.pool.holders && r !in s.pool.hands && r !in s.inflight
    requires Held(s.pool, s.inflight)
    ensures Leads(o, t) && Armed(t, a, w, r)
  {
    w := s.nextWork;
    var s1 := BeginOne(o, s, r, Ring.Flush, 0);
    assert s1.works == map[w := Worker(r, Filling)] && Count(s1.starts, r) == 1;
    HeldGrows(s.pool, s.inflight, r);
    t := ReadyOnly(o, s1, w, r);
  }

  lemma ReadyOnly(o: State, s: State, w: Work, r: Req) returns (t: State)
    requires Leads(o, s) && s.works == map[w := Worker(r, Filling)] && r !in s.pool.holders && r !in s.pool.hands
             && PduOf(s.pdu, r).segs == 0
    ensures Leads(o, t)
    ensures t == s.(works := map[w := Worker(r, Ready)], pool := s.pool.(holders := s.pool.holders[r := NO_PAGES]),
            busy := s.busy[r := Prepared(w)])
  {
    t := Prepare(o, s, w);
    Overwritten(map[], w, Worker(r, Filling), Worker(r, Ready));
  }

  lemma RaceArms(s: State, a: AgentId) returns (t: State, w: Work, r: Req)
    requires Good(s) && OutsideCan(s, Remove(a, true)) && s.lock.Some?
    ensures Leads(DoRemove(s, a, true), t) && Armed(t, a, w, r)
  {
    var s1 := Revive(s, a);
    r := NewRequest(s1);
    RevivedList(s1, a, r);
    t, w := Arm(DoRemove(s, a, true), s1, a, r);
  }

  // ---------------------------------------------------------------- what goes wrong

  /** Every splice takes published requests only. */
  ghost predicate SplicesPublished(s: State) {
    forall c :: RemoverCan(s, c, Splice) ==> ListPublished(s)
  }

  ghost predicate ListPublished(s: State) {
    forall r :: r in s.inflight ==> r in s.busy && s.busy[r] == Published
  }

  lemma SpliceTakesAll(s: State, c: AgentId, r: Req)
    requires RemoverCan(s, c, Splice) && r in s.inflight && r in s.busy && s.busy[r] != Published
    ensures !SplicesPublished(s)
  {
    assert !ListPublished(s);
  }

  /** The worker lists its request: a splice would now take it half-submitted. */
  lemma HalfSubmitted(o: State, s: State, a: AgentId, w: Work, r: Req) returns (t: State)
    requires Leads(o, s) && Armed(s, a, w, r)
    ensures Leads(o, t) && RemoverCan(t, a, Splice) && !SplicesPublished(t)
    ensures t == s.(works := map[w := Worker(r, Enlisted)], busy := s.busy[r := Listed(w)],
            inflight := s.inflight + [r])
  {
    t := EnlistOne(o, s, w);
    assert t.works == map[w := Worker(r, Enlisted)];
    assert t.inflight[|s.inflight|] == r;
    assert AgentAt(t, a, Flushed);
    SpliceTakesAll(t, a, r);
  }

  lemma TwoPlaces(b: Books, r: Req, a: AgentId, w: Work)
    requires InTmp(b, r, a) && WithWorker(b, r, w)
    ensures !InOnePlace(b, r)
  {
  }

  /** The removal takes it: the request is with its worker and on the private list. */
  lemma TakenTwice(o: State, s: State, a: AgentId, w: Work, r: Req) returns (t: State)
    requires Leads(o, s) && Armed(s, a, w, r)
    ensures Leads(o, t) && r in t.busy && Live(t.busy[r]) && PduOf(t.pdu, r).tid == 0 && !InOnePlace(BooksOf(t), r)
    ensures a in t.agents && t.agents[a] == Agent(Remover(true), Loop, s.inflight + [r])
            && t.works == map[w := Worker(r, Enlisted)]
    ensures t.pool == s.pool && t.starts == s.starts && SameCounts(s, t) && t.lock.None?
  {
    var u := HalfSubmitted(o, s, a, w, r);
    GoRemover(o, u, a, Splice);
    t := DoSplice(u, a);
    assert r in u.inflight;
    TwoPlaces(BooksOf(t), r, a, w);
  }

  /** A list the removal has emptied is filled again. */
  lemma RefilledAfterSplice(o: State, s: State, a: AgentId, w: Work, r: Req) returns (t: State)
    requires Leads(o, s) && Armed(s, a, w, r)
    ensures Leads(o, t) && t.sealed && t.inflight != []
  {
    assert AgentAt(s, a, Flushed);
    GoRemover(o, s, a, Splice);
    var u := DoSplice(s, a);
    t := EnlistOne(o, u, w);
  }

  // ---------------------------------------------------------------- ended, and published or requeued all the same

  /** The removal is between two requests of its list. */
  ghost predicate Popping(s: State, a: AgentId, pc: Pc, tmp: seq<Req>) {
    a in s.agents && s.agents[a] == Agent(Remover(true), pc, tmp)
  }

  /** What the removal's steps leave alone. */
  predicate Others(s: State, t: State) {
    && t.g == s.g && t.works == s.works && t.lock == s.lock && t.starts == s.starts && t.requeues == s.requeues
    && t.inflight == s.inflight && t.status == s.status
  }

  lemma PopMarks(o: State, s: State, a: AgentId, tmp: seq<Req>) returns (t: State)
    requires Leads(o, s) && Popping(s, a, Loop, tmp) && tmp != []
    ensures Leads(o, t) && Popping(t, a, Working(tmp[0], true), tmp[1..]) && Others(s, t) && t.pool == s.pool
            && t.ends == s.ends
  {
    assert AgentAt(s, a, Loop);
    GoRemover(o, s, a, Pop);
    var u := DoPop(s, a);
    assert IsWorking(u, a, false);
    GoCompleter(o, u, a, Mark);
    t := DoMark(u, a);
  }

  /** The next step of giving the pages of `q` back. */
  function FreeStep(p: Pool.State, q: Req): Pool.Action
    requires q in p.holders
  {
    if p.holders[q].pis == [] then Pool.Gone(q) else Pool.Free(q)
  }

  predicate Freeable(p: Pool.State, q: Req) { Pool.In(p, q, Pool.Held) || Pool.In(p, q, Pool.Freeing) }

  lemma FreeShrinks(p: Pool.State, q: Req)
    requires Freeable(p, q)
    ensures Pool.Enabled(p, FreeStep(p, q))
    ensures var n := Pool.Next(p, FreeStep(p, q));
            if p.holders[q].pis == [] then q !in n.holders
            else Freeable(n, q) && |n.holders[q].pis| < |p.holders[q].pis|
  {
  }

  /** Steps that give back what request `q` holds. */
  predicate FreesOf(steps: seq<Pool.Action>, q: Req) {
    steps == [] || ((steps[0].Free? || steps[0].Gone?) && steps[0].id == q && FreesOf(steps[1..], q))
  }

  /** One page after the other, then the holder itself; the requests of `rest` keep theirs. */
  lemma {:induction false} FreesAll(p: Pool.State, q: Req, rest: seq<Req>) returns (steps: seq<Pool.Action>)
    requires Freeable(p, q) && q !in rest && Held(p, rest)
    ensures FreesOf(steps, q) && Pool.RunOk(p, steps)
    ensures q !in Pool.Final(p, steps).holders && Held(Pool.Final(p, steps), rest)
    decreases |p.holders[q].pis|
  {
    var step := FreeStep(p, q);
    var n := Pool.Next(p, step);
    FreeShrinks(p, q);
    HeldElsewhere(p, step, rest);
    var more := [];
    if p.holders[q].pis != [] { more := FreesAll(n, q, rest); }
    steps := [step] + more;
    assert steps[1..] == more && steps[0] == step;
    assert Pool.RunOk(n, more) && Pool.Final(p, steps) == Pool.Final(n, more);
  }

  lemma LiftFree(o: State, s: State, a: AgentId, p: Pool.Action) returns (t: State)
    requires Leads(o, s) && IsWorking(s, a, true) && (p.Free? || p.Gone?) && p.id == s.agents[a].pc.req
    requires Pool.Enabled(s.pool, p)
    ensures Leads(o, t) && t == s.(pool := Pool.Next(s.pool, p))
  {
    GoCompleter(o, s, a, FreePages(p));
    t := s.(pool := Pool.Next(s.pool, p));
  }

  /** A completer or removal that holds `q` takes such steps. */
  lemma {:induction false} LiftFrees(o: State, s: State, a: AgentId, steps: seq<Pool.Action>) returns (t: State)
    requires Leads(o, s) && IsWorking(s, a, true) && FreesOf(steps, s.agents[a].pc.req) && Pool.RunOk(s.pool, steps)
    ensures Leads(o, t) && t == s.(pool := Pool.Final(s.pool, steps))
    decreases |steps|
  {
    if steps == [] {
      t := s;
    } else {
      var u := LiftFree(o, s, a, steps[0]);
      t := LiftFrees(o, u, a, steps[1..]);
    }
  }

  lemma HeldElsewhere(p: Pool.State, step: Pool.Action, xs: seq<Req>)
    requires Held(p, xs) && (step.Free? || step.Gone?) && step.id !in xs && Pool.Enabled(p, step)
    ensures Held(Pool.Next(p, step), xs)
  {
  }

  lemma EndsFirst(o: State, s: State, a: AgentId, q: Req, rest: seq<Req>) returns (t: State)
    requires Leads(o, s) && Popping(s, a, Working(q, true), rest) && q !in s.pool.holders
    ensures Leads(o, t) && Popping(t, a, Loop, rest) && Others(s, t) && t.pool == s.pool && t.ends == Incr(s.ends, q)
  {
    assert IsWorking(s, a, true);
    GoCompleter(o, s, a, End);
    var u := DoEnd(s, a);
    assert AgentAt(u, a, Advancing);
    GoCompleter(o, u, a, Advance);
    t := SetPc(u, a, Loop).(ring := Ring.Advance(u.ring));
  }

  lemma PopsOne(o: State, s: State, a: AgentId, tmp: seq<Req>) returns (t: State)
    requires Leads(o, s) && Popping(s, a, Loop, tmp) && tmp != [] && Held(s.pool, tmp)
    ensures Leads(o, t) && Popping(t, a, Loop, tmp[1..]) && Others(s, t) && t.ends == Incr(s.ends, tmp[0])
            && Held(t.pool, tmp[1..])
  {
    assert tmp[0] in tmp && tmp[0] !in tmp[1..];
    var s1 := PopMarks(o, s, a, tmp);
    var steps := FreesAll(s1.pool, tmp[0], tmp[1..]);
    assert IsWorking(s1, a, true);
    var s2 := LiftFrees(o, s1, a, steps);
    t := EndsFirst(o, s2, a, tmp[0], tmp[1..]);
  }

  /** The removal works through its list up to `r` and ends it. */
  lemma {:induction false} PopsTo(o: State, s: State, a: AgentId, tmp: seq<Req>, r: Req) returns (t: State)
    requires Leads(o, s) && Popping(s, a, Loop, tmp) && r in tmp && Held(s.pool, tmp)
    ensures Leads(o, t) && Others(s, t) && Count(t.ends, r) == Count(s.ends, r) + 1
    decreases |tmp|
  {
    var u := PopsOne(o, s, a, tmp);
    if tmp[0] == r { t := u; } else { t := PopsTo(o, u, a, tmp[1..], r); }
  }

  lemma Unbalanced(t: Tally, r: Req)
    requires Count(t.starts, r) == 1 && Count(t.ends, r) == 1 && (r in t.busy || Count(t.requeues, r) == 1)
    ensures !BalancedFor(t, r)
  {
  }

  /** A worker on a full ring takes its request off the list and gives it back. */
  lemma GivesBackAnyway(o: State, s: State, w: Work) returns (t: State)
    requires Leads(o, s) && WorkAt(s, w, RingFull) && s.lock.None?
    ensures Leads(o, t) && t.starts == s.starts && t.ends == s.ends && t.requeues == Incr(s.requeues, s.works[w].req)
  {
    GoWorker(o, s, w, Unlist);
    t := DoUnlist(s, w);
  }

  lemma PublishAtCounts(s: State, w: Work, v: Ring.View, se: nat)
    requires w in s.works
    ensures var t := PublishAt(s, w, v, se);
            t.starts == s.starts && SameCounts(s, t) && t.lock == s.lock && s.works[w].req in t.busy
  {
  }

  /** What the cmdr_lock section makes of the counts. */
  lemma PublishCounts(s: State, w: Work)
    requires WorkAt(s, w, Enlisted)
    ensures var t := DoPublish(s, w, s.g.align);
            && t.starts == s.starts && SameCounts(s, t) && t.lock == s.lock
            && (s.works[w].req in t.busy || (WorkAt(t, w, RingFull) && t.works[w].req == s.works[w].req))
  {
    if Ring.SpaceEnough(s.g, s.ring.head, s.ring.tail, s.g.align) {
      var v := Ring.Submit(s.g, s.ring, s.g.align, PduOf(s.pdu, s.works[w].req).op);
      PublishAtCounts(s, w, v, v.entries[|v.entries| - 1].pos);
    }
  }

  /** The worker publishes the ended request, or gives it back. */
  lemma CountedTwice(o: State, s: State, w: Work, r: Req) returns (t: State)
    requires Leads(o, s) && s.works == map[w := Worker(r, Enlisted)] && s.lock.None?
    requires Count(s.starts, r) == 1 && Count(s.ends, r) == 1 && Count(s.requeues, r) == 0
    ensures Leads(o, t) && !BalancedFor(TallyOf(t), r)
  {
    SmallestCommand(s.g);
    PublishCounts(s, w);
    GoWorker(o, s, w, Publish(s.g.align));
    var u := DoPublish(s, w, s.g.align);
    if r in u.busy { t := u; } else { t := GivesBackAnyway(o, u, w); }
    Unbalanced(TallyOf(t), r);
  }

  lemma EndedTwice(o: State, s: State, a: AgentId, w: Work, r: Req) returns (t: State)
    requires Leads(o, s) && Armed(s, a, w, r)
    ensures Leads(o, t) && !BalancedFor(TallyOf(t), r)
  {
    var s1 := TakenTwice(o, s, a, w, r);
    var tmp := s.inflight + [r];
    assert tmp[|s.inflight|] == r && Held(s1.pool, tmp);
    var s2 := PopsTo(o, s1, a, tmp, r);
    t := CountedTwice(o, s2, w, r);
  }

  // ---------------------------------------------------------------- the exact condition

  /** The guarantees that rest on a removal's flush. */
  datatype Guarantee = SplicePublished | OnePlace | ExactlyOnce | LiveHasTid | SealedEmpty

  ghost predicate Holds(g: Guarantee, s: State) {
    match g
    case SplicePublished => SplicesPublished(s)
    case OnePlace => forall r :: r in s.busy ==> InOnePlace(BooksOf(s), r)
    case ExactlyOnce => Balanced(TallyOf(s))
    case LiveHasTid => forall r :: r in s.busy && Live(s.busy[r]) ==> 0 < PduOf(s.pdu, r).tid
    case SealedEmpty => s.sealed ==> s.inflight == []
  }

  ghost predicate HoldsOnwards(g: Guarantee, s: State) {
    forall run :: RunOk(s, run) ==> Holds(g, Final(s, run))
  }

  lemma GoodHolds(g: Guarantee, s: State)
    requires Good(s)
    ensures Holds(g, s)
  {
    match g
    case SplicePublished => forall c | RemoverCan(s, c, Splice) ensures ListPublished(s) { SpliceFacts(s, c); }
    case OnePlace => forall r | r in s.busy
        ensures InOnePlace(BooksOf(s), r) { QueueOwnership.OnePlace(BooksOf(s), r); }
    case ExactlyOnce =>
    case LiveHasTid =>
      forall r | r in s.busy && Live(s.busy[r]) ensures 0 < PduOf(s.pdu, r).tid {
        assert ReqOk(RegistryOf(s), r) && TidOk(RegistryOf(s), PduOf(s.pdu, r).tid);
      }
    case SealedEmpty =>
  }

  lemma Fails(g: Guarantee, o: State, t: State)
    requires Leads(o, t) && !Holds(g, t)
    ensures !HoldsOnwards(g, o)
  {
  }

  /** Each guarantee fails in some state that an armed race leads to. */
  lemma ArmedBreaks(g: Guarantee, o: State, u: State, a: AgentId, w: Work, r: Req) returns (t: State)
    requires Leads(o, u) && Armed(u, a, w, r)
    ensures Leads(o, t) && !Holds(g, t)
  {
    match g
    case SplicePublished => t := HalfSubmitted(o, u, a, w, r);
    case OnePlace => t := TakenTwice(o, u, a, w, r);
    case ExactlyOnce => t := EndedTwice(o, u, a, w, r);
    case LiveHasTid => t := TakenTwice(o, u, a, w, r);
    case SealedEmpty => t := RefilledAfterSplice(o, u, a, w, r);
  }

  lemma RaceBreaks(g: Guarantee, s: State, a: AgentId)
    requires Good(s) && OutsideCan(s, Remove(a, true)) && s.lock.Some?
    ensures !HoldsOnwards(g, DoRemove(s, a, true))
  {
    var u, w, r := RaceArms(s, a);
    var t := ArmedBreaks(g, DoRemove(s, a, true), u, a, w, r);
    Fails(g, DoRemove(s, a, true), t);
  }

  lemma CleanHolds(g: Guarantee, s: State, a: AgentId, run: seq<Action>)
    requires Good(s) && !s.raced && s.lock.None? && OutsideCan(s, Remove(a, true)) && RunOk(DoRemove(s, a, true), run)
    ensures Holds(g, Final(DoRemove(s, a, true), run))
  {
    GoodOutside(s, Remove(a, true));
    RemovingForever(DoRemove(s, a, true), run);
    GoodHolds(g, Final(DoRemove(s, a, true), run));
  }

  /**
   In every continuation of a forced removal its splice takes published requests only, started requests
   are in one place, each is ended or requeued once, those under completion carry a tid, and the spliced
   list stays empty: each of these exactly when no completer is about to write STOPPED at that moment.
   */
  lemma ForcedRemovalIsSafe(g: Guarantee, s: State, a: AgentId)
    requires Reachable(s) && OutsideCan(s, Remove(a, true))
    ensures HoldsOnwards(g, DoRemove(s, a, true)) <==> s.lock.None?
  {
    ReachableGood(s);
    var t := DoRemove(s, a, true);
    if s.lock.None? {
      forall run | RunOk(t, run) ensures Holds(g, Final(t, run)) { CleanHolds(g, s, a, run); }
    } else {
      RaceBreaks(g, s, a);
    }
  }
}
