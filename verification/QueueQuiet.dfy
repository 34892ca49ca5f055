/**
 When a STOPPED queue with nothing in flight stays empty. A worker that passed its status check
 earlier may still put its request on the list, if it can ever have the data pages it wants; bits lost
 to a full ring count against it, pages other requests hold do not, since those come back.
 */
module QueueQuiet {
  import Ring
  import Pool
  import opened Queue
  import opened QueueOwnership
  import opened QueueGates
  import opened QueueProof
  import opened QueueTheorems
  import opened QueueStranding

  /** Bits that are set with no request holding them. */
  ghost function Lost(p: Pool.State): set<nat> { set i | i in p.core.bits && Pool.Unheld(p, i) }

  /** How many pages one request could ever get. */
  ghost function Room(p: Pool.State): int { p.core.dataPages - |Lost(p)| }

  /** The request's preparation has failed already, or it wants more pages than it can ever get. */
  ghost predicate Doomed(p: Pool.State, r: Req, segs: nat) {
    if r !in p.holders then Room(p) < segs else
    || p.holders[r].mode == Pool.Undoing
    || ((p.holders[r].mode == Pool.Filling || p.holders[r].mode == Pool.NeedPage) && Room(p) < p.holders[r].want)
  }

  /** The part of a queue's state that preparations depend on. */
  datatype Bench = Bench(works: map<Work, Worker>, pool: Pool.State, pdu: map<Req, Pdu>)

  function BenchOf(s: State): Bench { Bench(s.works, s.pool, s.pdu) }

  /** Worker `w` is before its status check, or preparing in vain. */
  ghost predicate Vain(b: Bench, w: Work)
    requires w in b.works
  {
    var r := b.works[w].req;
    b.works[w].pc == Queued || (b.works[w].pc == Filling && Doomed(b.pool, r, PduOf(b.pdu, r).segs))
  }

  ghost predicate NoneViable(b: Bench) { forall w :: w in b.works ==> Vain(b, w) }

  // ---------------------------------------------------------------- how many pages there are

  /** What one request holds fits the room. */
  lemma HeldWithinRoom(p: Pool.State, r: Req)
    requires Pool.Partition(p) && r in p.holders
    ensures |p.holders[r].pis| <= Room(p)
  {
    var mine := Pool.Elements(p.holders[r].pis);
    assert Pool.Owns(p.owner, r, p.holders[r].pis);
    Pool.ElementsSize(p.holders[r].pis);
    assert mine !! Lost(p);
    forall i | i in mine + Lost(p) ensures i < p.core.dataPages { }
    Pool.BelowSize(mine + Lost(p), p.core.dataPages);
  }

  // ---------------------------------------------------------------- doomed stays doomed

  lemma RoomShrinks(p: Pool.State, step: Pool.Action)
    requires Pool.Inv(p) && Pool.Enabled(p, step)
    ensures Room(Pool.Next(p, step)) <= Room(p)
  {
    var q := Pool.Next(p, step);
    forall i | i in Lost(p) ensures i in Lost(q) { PoolLost(p, step, i); }
    Pool.SubsetSize(Lost(p), Lost(q));
    SamePool(p, step);
  }

  lemma SamePool(p: Pool.State, step: Pool.Action)
    requires Pool.Enabled(p, step)
    ensures Pool.Next(p, step).core.dataPages == p.core.dataPages
  {
  }

  /** What the steps of a preparation do to the holder they are for. */
  lemma PreparationStep(p: Pool.State, step: Pool.Action)
    requires FillStep(step) && Pool.Enabled(p, step) && step.id in p.holders
    ensures var q := Pool.Next(p, step);
            && q.holders.Keys == p.holders.Keys
            && q.holders[step.id].want == p.holders[step.id].want
            && (q.holders[step.id].mode == Pool.Held ==> Pool.Filled(p, step.id))
            && (p.holders[step.id].mode == Pool.Undoing ==> q.holders[step.id].mode == Pool.Undoing)
            && q.holders[step.id].mode != Pool.Freeing
            && forall r :: r in p.holders && r != step.id ==> q.holders[r] == p.holders[r]
  {
  }

  /** Other requests' steps leave the holder of `r` alone. */
  lemma OtherStep(p: Pool.State, step: Pool.Action, r: Req)
    requires Pool.Enabled(p, step) && r in p.holders && (step.Fault? || step.SetReserve? || step.id != r)
    ensures r in Pool.Next(p, step).holders && Pool.Next(p, step).holders[r] == p.holders[r]
  {
  }

  lemma StaysUnheld(p: Pool.State, step: Pool.Action, r: Req)
    requires Pool.Enabled(p, step) && r !in p.holders && (step.Fault? || step.SetReserve? || step.id != r)
    ensures r !in Pool.Next(p, step).holders
  {
  }

  /** A preparation begins with the request's own number of segments. */
  lemma BeginDoomed(p: Pool.State, step: Pool.Action, r: Req, segs: nat)
    requires Pool.Inv(p) && Pool.Enabled(p, step) && r !in p.holders && Doomed(p, r, segs)
    requires step == Pool.Begin(r, segs) || step.Fault? || step.SetReserve? || step.id != r
    ensures Doomed(Pool.Next(p, step), r, segs)
  {
    RoomShrinks(p, step);
    if step != Pool.Begin(r, segs) { StaysUnheld(p, step, r); }
  }

  lemma DoomedStep(p: Pool.State, step: Pool.Action, r: Req, segs: nat)
    requires Pool.Inv(p) && Pool.Enabled(p, step) && Doomed(p, r, segs)
    requires step.Fault? || step.SetReserve? || step.id != r || (FillStep(step) && (step.Begin? ==> step.want == segs))
    ensures Doomed(Pool.Next(p, step), r, segs)
  {
    if r !in p.holders {
      BeginDoomed(p, step, r, segs);
    } else {
      RoomShrinks(p, step);
      if step.Fault? || step.SetReserve? || step.id != r {
        OtherStep(p, step, r);
      } else {
        PreparationStep(p, step);
        HeldWithinRoom(p, r);
      }
    }
  }

  // ---------------------------------------------------------------- a quiet queue stays quiet

  /** Not a step for the request of `w`, or one of its preparation. */
  ghost predicate Preparatory(b: Bench, w: Work, step: Pool.Action)
    requires w in b.works
  {
    || step.Fault? || step.SetReserve? || step.id != b.works[w].req
    || (FillStep(step) && (step.Begin? ==> step.want == PduOf(b.pdu, b.works[w].req).segs))
  }

  /** The pool takes a step that is not the end of a worker's preparation. */
  lemma VainPool(b: Bench, step: Pool.Action)
    requires NoneViable(b) && Pool.Inv(b.pool) && Pool.Enabled(b.pool, step)
    requires forall w :: w in b.works ==> Preparatory(b, w, step)
    ensures NoneViable(b.(pool := Pool.Next(b.pool, step)))
  {
    var c := b.(pool := Pool.Next(b.pool, step));
    forall w | w in c.works ensures Vain(c, w) {
      assert Vain(b, w) && Preparatory(b, w, step);
      if b.works[w].pc == Filling { DoomedStep(b.pool, step, b.works[w].req, PduOf(b.pdu, b.works[w].req).segs); }
    }
  }

  lemma VainLeave(b: Bench, w: Work)
    requires NoneViable(b)
    ensures NoneViable(b.(works := b.works - {w}))
  {
    var c := b.(works := b.works - {w});
    forall v | v in c.works ensures Vain(c, v) { assert Vain(b, v); }
  }

  lemma VainArrive(b: Bench, w: Work, r: Req, p: Pdu)
    requires NoneViable(b) && forall v :: v in b.works ==> b.works[v].req != r
    ensures NoneViable(b.(works := b.works[w := Worker(r, Queued)], pdu := b.pdu[r := p]))
  {
    var c := b.(works := b.works[w := Worker(r, Queued)], pdu := b.pdu[r := p]);
    forall v | v in c.works ensures Vain(c, v) { if v != w { assert Vain(b, v); } }
  }

  /** No worker is ready, listed or about to be. */
  lemma OnlyVainSteps(s: State, w: Work, step: WorkerStep)
    requires s.g.Ok() && NoneViable(BenchOf(s)) && WorkerCan(s, w, step)
    ensures step.Check? || step.PiFail? || step.Fill? || step.FillFailed? || step.Notify?
  {
    assert w in s.works ==> Vain(BenchOf(s), w);
  }

  /** A worker is the only one with its request. */
  lemma OthersDiffer(s: State, w: Work)
    requires Own(BooksOf(s)) && w in s.works
    ensures forall v :: v in s.works && v != w ==> s.works[v].req != s.works[w].req
  {
    assert WorkOk(BooksOf(s), w);
    forall v | v in s.works && v != w ensures s.works[v].req != s.works[w].req { assert WorkOk(BooksOf(s), v); }
  }

  /** The request an agent has marked is with no worker. */
  lemma MarkedIsNotPrepared(s: State, a: AgentId)
    requires Own(BooksOf(s)) && IsWorking(s, a, true)
    ensures forall w :: w in s.works ==> s.works[w].req != s.agents[a].pc.req
  {
    assert AgentOk(BooksOf(s), a);
    forall w | w in s.works ensures s.works[w].req != s.agents[a].pc.req { assert WorkOk(BooksOf(s), w); }
  }

  /** Not running, nothing in flight, and no worker that could change that. */
  ghost predicate Quiet(s: State) {
    s.status != Running && s.inflight == [] && s.lock.None? && NoneViable(BenchOf(s))
  }

  /** Nothing but the bench changes. */
  predicate SameFront(s: State, t: State) { t.status == s.status && t.inflight == s.inflight && t.lock == s.lock }

  lemma QuietReturns(s: State, w: Work)
    requires Quiet(s) && w in s.works
    ensures Quiet(Requeue(s, w)) && Quiet(Refuse(s, w))
  {
    VainLeave(BenchOf(s), w);
    assert BenchOf(Requeue(s, w)) == BenchOf(s).(works := s.works - {w}) && SameFront(s, Requeue(s, w));
    assert BenchOf(Refuse(s, w)) == BenchOf(s).(works := s.works - {w}) && SameFront(s, Refuse(s, w));
  }

  lemma QuietFails(s: State, w: Work)
    requires Own(BooksOf(s)) && Pool.Inv(s.pool) && s.g.Ok() && Quiet(s) && WorkerCan(s, w, FillFailed)
    ensures Quiet(WorkerNext(s, w, FillFailed))
  {
    var t := WorkerNext(s, w, FillFailed);
    var step := Pool.Fail(s.works[w].req);
    var b := BenchOf(s).(works := s.works - {w});
    OthersDiffer(s, w);
    VainLeave(BenchOf(s), w);
    assert BenchOf(t) == b.(pool := Pool.Next(b.pool, step)) && SameFront(s, t);
    VainPool(b, step);
  }

  lemma QuietFills(s: State, w: Work, p: Pool.Action)
    requires Own(BooksOf(s)) && Pool.Inv(s.pool) && s.g.Ok() && Quiet(s) && WorkerCan(s, w, Fill(p))
    ensures Quiet(WorkerNext(s, w, Fill(p)))
  {
    var t := WorkerNext(s, w, Fill(p));
    OthersDiffer(s, w);
    assert BenchOf(t) == BenchOf(s).(pool := Pool.Next(s.pool, p)) && SameFront(s, t);
    VainPool(BenchOf(s), p);
  }

  lemma QuietNotify(s: State, w: Work)
    requires s.g.Ok() && Quiet(s) && WorkerCan(s, w, Notify)
    ensures Quiet(WorkerNext(s, w, Notify))
  {
    assert BenchOf(WorkerNext(s, w, Notify)) == BenchOf(s);
  }

  lemma QuietCheck(s: State, w: Work)
    requires Quiet(s) && w in s.works
    ensures Quiet(DoCheck(s, w))
  {
    QuietReturns(s, w);
  }

  lemma QuietWorker(s: State, w: Work, step: WorkerStep)
    requires Own(BooksOf(s)) && Pool.Inv(s.pool) && s.g.Ok() && Quiet(s) && WorkerCan(s, w, step)
    ensures Quiet(WorkerNext(s, w, step))
  {
    OnlyVainSteps(s, w, step);
    if step.Fill? {
      QuietFills(s, w, step.step);
    } else if step.FillFailed? {
      QuietFails(s, w);
    } else {
      QuietOthers(s, w, step);
    }
  }

  lemma QuietOthers(s: State, w: Work, step: WorkerStep)
    requires s.g.Ok() && Quiet(s) && WorkerCan(s, w, step) && (step.Check? || step.PiFail? || step.Notify?)
    ensures Quiet(WorkerNext(s, w, step))
  {
    match step
    case Check => QuietCheck(s, w);
    case PiFail => QuietReturns(s, w);
    case Notify => QuietNotify(s, w);
  }

  lemma QuietFrees(s: State, a: AgentId, p: Pool.Action)
    requires Own(BooksOf(s)) && Pool.Inv(s.pool) && Quiet(s) && CompleterCan(s, a, FreePages(p))
    ensures Quiet(CompleterNext(s, a, FreePages(p)))
  {
    var t := CompleterNext(s, a, FreePages(p));
    MarkedIsNotPrepared(s, a);
    assert BenchOf(t) == BenchOf(s).(pool := Pool.Next(s.pool, p)) && SameFront(s, t);
    VainPool(BenchOf(s), p);
  }

  lemma UnlockedHasNoStore(s: State, a: AgentId)
    requires Gates(GateOf(s)) && s.lock.None?
    ensures !CompleterCan(s, a, Store)
  {
    if a in s.agents { assert AgentGate(GateOf(s), a); }
  }

  lemma QuietMoves(s: State, a: AgentId, step: CompleterStep)
    requires Quiet(s) && CompleterCan(s, a, step) && !step.FreePages? && !step.Store?
    ensures Quiet(CompleterNext(s, a, step))
  {
    var t := CompleterNext(s, a, step);
    if step.Fetch? { assert Find(s.inflight, s.pdu, s.agents[a].pc.tid).None?; }
    assert BenchOf(t) == BenchOf(s) && SameFront(s, t);
  }

  lemma QuietCompleter(s: State, a: AgentId, step: CompleterStep)
    requires Own(BooksOf(s)) && Pool.Inv(s.pool) && Gates(GateOf(s)) && Quiet(s) && CompleterCan(s, a, step)
    ensures Quiet(CompleterNext(s, a, step))
  {
    UnlockedHasNoStore(s, a);
    if step.FreePages? { QuietFrees(s, a, step.step); } else { QuietMoves(s, a, step); }
  }

  lemma QuietRemover(s: State, a: AgentId, step: RemoverStep)
    requires Quiet(s) && RemoverCan(s, a, step)
    ensures Quiet(RemoverNext(s, a, step))
  {
    var t := RemoverNext(s, a, step);
    RemoverFrame(s, a, step);
    FlagsRemover(s, a, step);
    assert BenchOf(t) == BenchOf(s) && SameFront(s, t);
  }

  lemma QuietControl(s: State, step: ControlStep)
    requires Quiet(s) && ControlCan(s, step) && !step.Start?
    ensures Quiet(ControlNext(s, step))
  {
    assert BenchOf(ControlNext(s, step)) == BenchOf(s);
  }

  lemma QuietArrival(s: State, r: Req, op: Ring.Op, segs: nat)
    requires Own(BooksOf(s)) && Quiet(s) && r !in s.busy
    ensures Quiet(DoQueueRq(s, r, op, segs))
  {
    var t := DoQueueRq(s, r, op, segs);
    forall v | v in s.works ensures s.works[v].req != r { assert WorkOk(BooksOf(s), v); }
    assert BenchOf(t) == BenchOf(s).(works := s.works[s.nextWork := Worker(r, Queued)],
        pdu := s.pdu[r := Pdu(op, segs, 0, 0)]);
    VainArrive(BenchOf(s), s.nextWork, r, Pdu(op, segs, 0, 0));
    assert SameFront(s, t);
  }

  lemma QuietMemory(s: State, p: Pool.Action)
    requires Pool.Inv(s.pool) && Quiet(s) && OutsideCan(s, Memory(p))
    ensures Quiet(OutsideNext(s, Memory(p)))
  {
    var t := OutsideNext(s, Memory(p));
    assert BenchOf(t) == BenchOf(s).(pool := Pool.Next(s.pool, p)) && SameFront(s, t);
    VainPool(BenchOf(s), p);
  }

  lemma QuietOutside(s: State, step: OutsideStep)
    requires Own(BooksOf(s)) && Pool.Inv(s.pool) && Quiet(s) && OutsideCan(s, step)
    ensures Quiet(OutsideNext(s, step))
  {
    match step
    case Memory(p) => QuietMemory(s, p);
    case QueueRq(r, op, segs) => QuietArrival(s, r, op, segs);
    case _ => assert BenchOf(OutsideNext(s, step)) == BenchOf(s);
  }

  lemma QuietStep(s: State, a: Action)
    requires Good(s) && Quiet(s) && Enabled(s, a) && a != ByControl(Start)
    ensures Quiet(Next(s, a))
  {
    match a
    case ByWorker(w, step) => QuietWorker(s, w, step);
    case ByCompleter(c, step) => QuietCompleter(s, c, step);
    case ByRemover(c, step) => QuietRemover(s, c, step);
    case ByControl(step) => QuietControl(s, step);
    case ByOutside(step) => QuietOutside(s, step);
  }

  ghost predicate Resting(s: State) { Good(s) && !s.raced && Quiet(s) }

  lemma RestingStep(s: State, a: Action)
    requires Resting(s) && Enabled(s, a) && a != ByControl(Start)
    ensures Resting(Next(s, a))
  {
    RacedStep(s, a);
    StepGood(s, a);
    QuietStep(s, a);
  }

  predicate NoStart(run: seq<Action>) { run == [] || (run[0] != ByControl(Start) && NoStart(run[1..])) }

  /** Some continuation without a start puts a request on the list. */
  ghost predicate CanRefill(s: State) {
    exists run :: RunOk(s, run) && NoStart(run) && Final(s, run).inflight != []
  }

  lemma {:induction false} RestingStaysEmpty(s: State, run: seq<Action>)
    requires Resting(s) && RunOk(s, run) && NoStart(run)
    ensures Final(s, run).inflight == []
    decreases |run|
  {
    if run != [] {
      RestingStep(s, run[0]);
      RestingStaysEmpty(Next(s, run[0]), run[1..]);
    }
  }

  // ---------------------------------------------------------------- a viable worker refills the list

  /** Stopped with nothing in flight. */
  ghost predicate Empty(s: State) { s.g.Ok() && Reachable(s) && s.status == Stopped && s.inflight == [] }

  lemma EmptyPool(s: State)
    requires Empty(s)
    ensures Pool.Inv(s.pool)
  {
    ReachableGood(s);
  }

  lemma RefillAfter(s: State, a: Action)
    requires s.g.Ok() && Enabled(s, a) && a != ByControl(Start) && CanRefill(Next(s, a))
    ensures CanRefill(s)
  {
    var rest :| RunOk(Next(s, a), rest) && NoStart(rest) && Final(Next(s, a), rest).inflight != [];
    var run := [a] + rest;
    assert run[1..] == rest && run[0] == a;
    assert RunOk(s, run) && NoStart(run);
    assert Final(s, run) == Final(Next(s, a), rest);
  }

  lemma RefilledNow(s: State)
    requires s.inflight != []
    ensures CanRefill(s)
  {
    assert RunOk(s, []) && NoStart([]) && Final(s, []) == s;
  }

  lemma StaysEmpty(s: State, a: Action)
    requires Empty(s) && Enabled(s, a) && !(a.ByOutside? && a.outside.Remove?)
    requires Next(s, a).status == Stopped && Next(s, a).inflight == []
    ensures Empty(Next(s, a))
  {
    RacedStep(s, a);
    ReachableStep(s, a);
    ReachableGood(Next(s, a));
  }

  /** A worker takes one step of its preparation. */
  lemma FillMoves(s: State, w: Work, p: Pool.Action) returns (t: State)
    requires Empty(s) && WorkerCan(s, w, Fill(p))
    ensures t == s.(pool := Pool.Next(s.pool, p)) && Empty(t)
    ensures CanRefill(t) ==> CanRefill(s)
  {
    var a := ByWorker(w, Fill(p));
    t := s.(pool := Pool.Next(s.pool, p));
    assert t == Next(s, a);
    StaysEmpty(s, a);
    if CanRefill(t) { RefillAfter(s, a); }
  }

  /** A completer gives one page back. */
  lemma FreeMoves(s: State, c: AgentId, p: Pool.Action) returns (t: State)
    requires Empty(s) && CompleterCan(s, c, FreePages(p))
    ensures t == s.(pool := Pool.Next(s.pool, p)) && Empty(t)
    ensures CanRefill(t) ==> CanRefill(s)
  {
    var a := ByCompleter(c, FreePages(p));
    t := s.(pool := Pool.Next(s.pool, p));
    assert t == Next(s, a);
    StaysEmpty(s, a);
    if CanRefill(t) { RefillAfter(s, a); }
  }

  /** A completer sets DONE for the request in its hand. */
  lemma MarkMoves(s: State, c: AgentId) returns (t: State)
    requires Empty(s) && IsWorking(s, c, false)
    ensures Empty(t) && t.pool == s.pool && t.works == s.works
    ensures var q := s.agents[c].pc.req;
            t.busy == s.busy[q := Marked(c)] && c in t.agents && t.agents[c].pc == Working(q, true)
    ensures CanRefill(t) ==> CanRefill(s)
  {
    var a := ByCompleter(c, Mark);
    t := DoMark(s, c);
    assert t == Next(s, a);
    StaysEmpty(s, a);
    if CanRefill(t) { RefillAfter(s, a); }
  }

  lemma EmptyIsUnlocked(s: State)
    requires Empty(s)
    ensures s.lock.None?
  {
    ReachableGood(s);
  }

  lemma ReadyRefills(s: State, w: Work)
    requires Empty(s) && WorkAt(s, w, Ready)
    ensures CanRefill(s)
  {
    EmptyIsUnlocked(s);
    var a := ByWorker(w, Enlist);
    assert Next(s, a) == DoEnlist(s, w);
    RefilledNow(DoEnlist(s, w));
    RefillAfter(s, a);
  }

  lemma HeldRefills(s: State, w: Work)
    requires Empty(s) && WorkAt(s, w, Filling) && Pool.In(s.pool, s.works[w].req, Pool.Held)
    ensures CanRefill(s)
  {
    var a := ByWorker(w, FillDone);
    var t := SetWork(s, w, Ready, Prepared(w));
    assert t == Next(s, a);
    StaysEmpty(s, a);
    ReadyRefills(t, w);
    RefillAfter(s, a);
  }

  lemma SettledRefills(s: State, w: Work)
    requires Empty(s) && WorkAt(s, w, Filling) && Pool.Filled(s.pool, s.works[w].req) && s.works[w].req !in s.pool.hands
    ensures CanRefill(s)
  {
    var t := FillMoves(s, w, Pool.Settle(s.works[w].req));
    HeldRefills(t, w);
  }

  lemma FilledRefills(s: State, w: Work)
    requires Empty(s) && WorkAt(s, w, Filling) && Pool.Filled(s.pool, s.works[w].req)
    ensures CanRefill(s)
  {
    var r := s.works[w].req;
    if r in s.pool.hands {
      var t := FillMoves(s, w, Pool.DropHand(r));
      SettledRefills(t, w);
    } else {
      SettledRefills(s, w);
    }
  }

  /** The preparation of `w` is under way and can still have all the pages it wants. */
  ghost predicate Trying(s: State, w: Work) {
    WorkAt(s, w, Filling) && TryingFor(s.pool, s.works[w].req)
  }

  ghost predicate TryingFor(p: Pool.State, r: Req) {
    r in p.holders && (p.holders[r].mode == Pool.Filling || p.holders[r].mode == Pool.NeedPage)
        && p.holders[r].want <= Room(p)
  }

  function Need(p: Pool.State, r: Req): nat {
    if r in p.holders && |p.holders[r].pis| < p.holders[r].want then p.holders[r].want - |p.holders[r].pis| else 0
  }

  predicate AllSet(c: Pool.Core) { Pool.FirstZero(c.bits, 0, c.dataPages) == c.dataPages }

  lemma RoomStays(p: Pool.State, step: Pool.Action)
    requires Pool.Inv(p) && Pool.Enabled(p, step) && !step.Strand?
    ensures Room(Pool.Next(p, step)) == Room(p)
  {
    var q := Pool.Next(p, step);
    forall i ensures i in Lost(p) <==> i in Lost(q) { PoolLost(p, step, i); }
    assert Lost(p) == Lost(q);
    SamePool(p, step);
  }

  /** A step for another request. */
  lemma OtherKeepsTrying(p: Pool.State, step: Pool.Action, r: Req)
    requires Pool.Inv(p) && Pool.Enabled(p, step) && TryingFor(p, r)
    requires !step.Strand? && !step.Fault? && !step.SetReserve? && step.id != r
    ensures TryingFor(Pool.Next(p, step), r) && Need(Pool.Next(p, step), r) == Need(p, r)
    ensures Pool.Filled(Pool.Next(p, step), r) == Pool.Filled(p, r)
  {
    RoomStays(p, step);
    OtherStep(p, step, r);
  }

  lemma PassMoves(p: Pool.State, r: Req)
    requires Pool.Enabled(p, Pool.Pass(r, true)) && !AllSet(p.core)
    ensures var q := Pool.Next(p, Pool.Pass(r, true));
            && r in q.holders && q.holders[r].want == p.holders[r].want
            && (|| (q.holders[r].mode == Pool.Filling && |q.holders[r].pis| == |p.holders[r].pis| + 1)
                || (r !in p.hands && q.holders[r].mode == Pool.NeedPage && q.holders[r].pis == p.holders[r].pis
                   && q.core == p.core))
  {
    var c := Pool.Claim(p.core, Pool.Hand(p, r), true);
  }

  /** A pass with a clear bit claims it, or asks for a page. */
  lemma PassProgress(p: Pool.State, r: Req)
    requires Pool.Inv(p) && TryingFor(p, r) && Pool.Enabled(p, Pool.Pass(r, true)) && !AllSet(p.core)
    ensures var q := Pool.Next(p, Pool.Pass(r, true));
            && TryingFor(q, r)
            && (Need(q, r) < Need(p, r)
                || (r !in p.hands && q.holders[r].mode == Pool.NeedPage && Need(q, r) == Need(p, r)
                   && q.core == p.core))
  {
    RoomStays(p, Pool.Pass(r, true));
    PassMoves(p, r);
  }

  lemma AllocMoves(p: Pool.State, r: Req, page: Pool.Page)
    requires Pool.Enabled(p, Pool.AllocPage(r, Pool.Some(page)))
    ensures var q := Pool.Next(p, Pool.AllocPage(r, Pool.Some(page)));
            && r in q.holders && q.holders[r] == p.holders[r].(mode := Pool.Filling) && r in q.hands
            && q.core.bits == p.core.bits && q.core.dataPages == p.core.dataPages
  {
  }

  lemma AllocProgress(p: Pool.State, r: Req, page: Pool.Page)
    requires Pool.Inv(p) && TryingFor(p, r) && Pool.Enabled(p, Pool.AllocPage(r, Pool.Some(page)))
    ensures var q := Pool.Next(p, Pool.AllocPage(r, Pool.Some(page)));
            && TryingFor(q, r) && Need(q, r) == Need(p, r) && AllSet(q.core) == AllSet(p.core)
            && q.holders[r].mode == Pool.Filling && r in q.hands
  {
    RoomStays(p, Pool.AllocPage(r, Pool.Some(page)));
    AllocMoves(p, r, page);
  }

  /** There is always an unused page. */
  lemma UnusedPage(p: Pool.State) returns (page: Pool.Page)
    ensures Pool.Unused(p, page)
  {
    var used := p.core.xa.Values + p.hands.Values;
    page := Pool.Fresh(|used| + 1, used);
  }

  /** With all bits set, some bit is neither lost nor the request's own. */
  lemma OtherBit(p: Pool.State, r: Req) returns (i: nat)
    requires Pool.Partition(p) && r in p.holders && |p.holders[r].pis| < Room(p) && AllSet(p.core)
    ensures i in p.core.bits && i !in p.holders[r].pis && i !in Lost(p)
  {
    var mine := Pool.Elements(p.holders[r].pis);
    assert Pool.Owns(p.owner, r, p.holders[r].pis);
    Pool.ElementsSize(p.holders[r].pis);
    Pool.BelowSize(p.core.bits, p.core.dataPages);
    if p.core.bits <= mine + Lost(p) {
      Pool.SubsetSize(p.core.bits, mine + Lost(p));
      assert false;
    }
    i :| i in p.core.bits && i !in mine && i !in Lost(p);
  }

  /** Everyone gives back what they can: which request to ask for a page when all bits are set. */
  lemma OtherHolder(p: Pool.State, r: Req) returns (q: Req)
    requires Pool.Partition(p) && TryingFor(p, r) && |p.holders[r].pis| < p.holders[r].want && AllSet(p.core)
    ensures q in p.holders && q != r && p.holders[q].pis != []
  {
    var i := OtherBit(p, r);
    assert !Pool.Unheld(p, i);
    q :| q in p.holders && i in p.holders[q].pis;
  }

  /**
   With the queue stopped and nothing in flight, a request with pages is being prepared, ready, or being
   completed.
   */
  ghost predicate Found(s: State, q: Req) {
    q in s.busy && q in s.pool.holders &&
    match s.busy[q]
    case Preparing(v) => WorkAt(s, v, Filling) && s.works[v].req == q && s.pool.holders[q].mode != Pool.Freeing
    case Prepared(v) => WorkAt(s, v, Ready)
    case Fetched(a) => a in s.agents && s.agents[a].pc == Working(q, false) && s.pool.holders[q].mode == Pool.Held
    case Marked(a) => a in s.agents && s.agents[a].pc == Working(q, true)
        && s.pool.holders[q].mode in {Pool.Held, Pool.Freeing}
    case _ => false
  }

  lemma NotWithStorer(s: State, a: AgentId)
    requires Gates(GateOf(s)) && s.status == Stopped && a in s.agents
    ensures !s.agents[a].pc.Storing? && s.agents[a].kind != Remover(true)
  {
    assert AgentGate(GateOf(s), a);
  }

  lemma NothingSpliced(s: State, a: AgentId)
    requires Own(BooksOf(s)) && Gates(GateOf(s)) && s.status == Stopped && a in s.agents
    ensures s.agents[a].tmp == []
  {
    NotWithStorer(s, a);
    assert AgentOk(BooksOf(s), a);
  }

  lemma Whereabouts(s: State, q: Req)
    requires Own(BooksOf(s)) && Gates(GateOf(s)) && Linked(s) && s.status == Stopped && s.inflight == []
             && q in s.pool.holders
    ensures Found(s, q)
  {
    var b := BooksOf(s);
    assert LinkOk(s.pool.holders, s.busy, q);
    assert BusyOk(b, q);
    assert !OnList(s.busy[q]) by { assert q !in s.inflight; }
    match s.busy[q]
    case Preparing(v) => assert WorkOk(b, v);
    case Prepared(v) => assert WorkOk(b, v);
    case Fetched(a) => NotWithStorer(s, a);
    case Spliced(a) => NothingSpliced(s, a);
    case _ =>
  }

  function Phase(s: State, q: Req): nat {
    if q !in s.busy || q !in s.pool.holders then 0
    else if s.busy[q].Fetched? then 2
    else if s.busy[q].Marked? then 1
    else if s.pool.holders[q].mode == Pool.Undoing then (if q in s.pool.hands then 2 else 1)
    else 3
  }

  /** Someone to ask for a page when all bits are set. */
  lemma SomeoneToAsk(s: State, w: Work) returns (q: Req)
    requires Empty(s) && Trying(s, w) && AllSet(s.pool.core) && !Pool.Filled(s.pool, s.works[w].req)
    ensures Found(s, q) && q != s.works[w].req && s.pool.holders[q].pis != []
  {
    ReachableGood(s);
    assert Pool.HolderOk(s.pool, s.works[w].req);
    q := OtherHolder(s.pool, s.works[w].req);
    Whereabouts(s, q);
  }

  /** The worker gets its pages one by one; when all bits are set, another request is made to give one back. */
  lemma {:induction false} TryingRefills(s: State, w: Work)
    requires Empty(s) && Trying(s, w)
    ensures CanRefill(s)
    decreases Need(s.pool, s.works[w].req), if AllSet(s.pool.core) then 1 else 0, 9, 0
  {
    if Pool.Filled(s.pool, s.works[w].req) {
      FilledRefills(s, w);
    } else if AllSet(s.pool.core) {
      var q := SomeoneToAsk(s, w);
      AskRefills(s, w, q);
    } else if s.pool.holders[s.works[w].req].mode == Pool.NeedPage {
      AllocRefills(s, w);
    } else {
      PassRefills(s, w);
    }
  }

  lemma {:induction false} AllocRefills(s: State, w: Work)
    requires Empty(s) && Trying(s, w) && s.pool.holders[s.works[w].req].mode == Pool.NeedPage && !AllSet(s.pool.core)
    ensures CanRefill(s)
    decreases Need(s.pool, s.works[w].req), 0, 8, 1
  {
    var r := s.works[w].req;
    var page := UnusedPage(s.pool);
    EmptyPool(s);
    AllocProgress(s.pool, r, page);
    var t := FillMoves(s, w, Pool.AllocPage(r, Pool.Some(page)));
    PassRefills(t, w);
  }

  lemma {:induction false} PassRefills(s: State, w: Work)
    requires Empty(s) && Trying(s, w) && s.pool.holders[s.works[w].req].mode == Pool.Filling && !AllSet(s.pool.core)
    ensures CanRefill(s)
    decreases Need(s.pool, s.works[w].req), 0, 8, if s.works[w].req in s.pool.hands then 0 else 2
  {
    var r := s.works[w].req;
    if Pool.Filled(s.pool, r) {
      FilledRefills(s, w);
    } else {
      EmptyPool(s);
      PassProgress(s.pool, r);
      var t := FillMoves(s, w, Pool.Pass(r, true));
      if Need(t.pool, r) < Need(s.pool, r) { TryingRefills(t, w); } else { AllocRefills(t, w); }
    }
  }

  /** Request `q` holds a page: it reaches the list itself, or gives the page back. */
  lemma {:induction false} AskRefills(s: State, w: Work, q: Req)
    requires Empty(s) && Trying(s, w) && AllSet(s.pool.core) && !Pool.Filled(s.pool, s.works[w].req)
    requires Found(s, q) && q != s.works[w].req && s.pool.holders[q].pis != []
    ensures CanRefill(s)
    decreases Need(s.pool, s.works[w].req), 1, Phase(s, q), 1
  {
    match s.busy[q]
    case Preparing(v) =>
      if s.pool.holders[q].mode == Pool.Held { HeldRefills(s, v); }
      else if Pool.Filled(s.pool, q) { FilledRefills(s, v); }
      else if s.pool.holders[q].mode == Pool.Undoing { AskUndoing(s, w, q, v); }
      else { AskPreparing(s, w, q, v); }
    case Prepared(v) => ReadyRefills(s, v);
    case Fetched(a) => AskCompleter(s, w, q, a);
    case Marked(a) => AskFreeing(s, w, q, a);
  }

  lemma {:induction false} AskCompleter(s: State, w: Work, q: Req, a: AgentId)
    requires Empty(s) && Trying(s, w) && AllSet(s.pool.core) && !Pool.Filled(s.pool, s.works[w].req)
    requires Found(s, q) && s.busy[q] == Fetched(a) && q != s.works[w].req && s.pool.holders[q].pis != []
    ensures CanRefill(s)
    decreases Need(s.pool, s.works[w].req), 1, Phase(s, q), 0
  {
    var t := MarkMoves(s, a);
    AskRefills(t, w, q);
  }

  lemma ReleaseClears(c: Pool.Core, i: nat)
    requires i < c.dataPages
    ensures !AllSet(Pool.Release(c, i))
  {
    assert i !in Pool.Release(c, i).bits;
  }

  /** A page given back leaves its bit clear. */
  lemma GiveBackClears(p: Pool.State, step: Pool.Action)
    requires Pool.Partition(p) && Pool.Enabled(p, step) && (step.Undo? || step.Free?)
    ensures !AllSet(Pool.Next(p, step).core)
  {
    var pis := p.holders[step.id].pis;
    var k := if step.Undo? then |pis| - 1 else 0;
    Pool.HeldIsSet(p, step.id, k);
    ReleaseClears(p.core, pis[k]);
  }

  lemma {:induction false} AskFreeing(s: State, w: Work, q: Req, a: AgentId)
    requires Empty(s) && Trying(s, w) && AllSet(s.pool.core) && !Pool.Filled(s.pool, s.works[w].req)
    requires Found(s, q) && s.busy[q] == Marked(a) && q != s.works[w].req && s.pool.holders[q].pis != []
    ensures CanRefill(s)
    decreases Need(s.pool, s.works[w].req), 1, Phase(s, q), 0
  {
    var step := Pool.Free(q);
    AskKeepsTrying(s, step, s.works[w].req);
    var t := FreeMoves(s, a, step);
    TryingRefills(t, w);
  }

  /** Asking another request for a page leaves the worker's own preparation alone. */
  lemma AskKeepsTrying(s: State, step: Pool.Action, r: Req)
    requires Empty(s) && Pool.Enabled(s.pool, step) && TryingFor(s.pool, r)
    requires !step.Strand? && !step.Fault? && !step.SetReserve? && step.id != r
    ensures TryingFor(Pool.Next(s.pool, step), r) && Need(Pool.Next(s.pool, step), r) == Need(s.pool, r)
    ensures Pool.Filled(Pool.Next(s.pool, step), r) == Pool.Filled(s.pool, r)
    ensures step.Undo? || step.Free? ==> !AllSet(Pool.Next(s.pool, step).core)
  {
    EmptyPool(s);
    OtherKeepsTrying(s.pool, step, r);
    if step.Undo? || step.Free? { GiveBackClears(s.pool, step); }
  }

  /** The step that makes a preparation short of a page give up. */
  function GiveUp(p: Pool.State, q: Req): Pool.Action
    requires q in p.holders
  {
    if p.holders[q].mode == Pool.NeedPage then Pool.AllocPage(q, Pool.None) else Pool.Pass(q, true)
  }

  lemma GivesUp(p: Pool.State, q: Req)
    requires q in p.holders && AllSet(p.core)
    requires p.holders[q].mode == Pool.NeedPage || (p.holders[q].mode == Pool.Filling && !Pool.Filled(p, q))
    ensures Pool.Enabled(p, GiveUp(p, q)) && Pool.Next(p, GiveUp(p, q)) == Pool.SetMode(p, q, Pool.Undoing)
  {
  }

  lemma {:induction false} AskPreparing(s: State, w: Work, q: Req, v: Work)
    requires Empty(s) && Trying(s, w) && AllSet(s.pool.core) && !Pool.Filled(s.pool, s.works[w].req)
    requires Found(s, q) && s.busy[q] == Preparing(v) && q != s.works[w].req && s.pool.holders[q].pis != []
    requires s.pool.holders[q].mode != Pool.Held && s.pool.holders[q].mode != Pool.Undoing && !Pool.Filled(s.pool, q)
    ensures CanRefill(s)
    decreases Need(s.pool, s.works[w].req), 1, Phase(s, q), 0
  {
    GivesUp(s.pool, q);
    var step := GiveUp(s.pool, q);
    AskKeepsTrying(s, step, s.works[w].req);
    var t := FillMoves(s, v, step);
    AskRefills(t, w, q);
  }

  lemma DropsHand(p: Pool.State, q: Req)
    requires Pool.Enabled(p, Pool.DropHand(q))
    ensures var n := Pool.Next(p, Pool.DropHand(q));
            n.holders == p.holders && q !in n.hands && n.core.bits == p.core.bits
                && n.core.dataPages == p.core.dataPages
  {
  }

  lemma {:induction false} AskUndoing(s: State, w: Work, q: Req, v: Work)
    requires Empty(s) && Trying(s, w) && AllSet(s.pool.core) && !Pool.Filled(s.pool, s.works[w].req)
    requires Found(s, q) && s.busy[q] == Preparing(v) && q != s.works[w].req && s.pool.holders[q].pis != []
    requires s.pool.holders[q].mode == Pool.Undoing
    ensures CanRefill(s)
    decreases Need(s.pool, s.works[w].req), 1, Phase(s, q), 0
  {
    var step := if q in s.pool.hands then Pool.DropHand(q) else Pool.Undo(q);
    AskKeepsTrying(s, step, s.works[w].req);
    var t := FillMoves(s, v, step);
    if q in s.pool.hands {
      DropsHand(s.pool, q);
      AskRefills(t, w, q);
    } else {
      TryingRefills(t, w);
    }
  }

  // ---------------------------------------------------------------- the result

  /** A preparation not yet begun: it begins with the request's segments. */
  lemma NotBegunRefills(s: State, w: Work)
    requires Empty(s) && WorkAt(s, w, Filling) && s.works[w].req !in s.pool.holders
    requires PduOf(s.pdu, s.works[w].req).segs <= Room(s.pool)
    ensures CanRefill(s)
  {
    var r := s.works[w].req;
    var step := Pool.Begin(r, PduOf(s.pdu, r).segs);
    EmptyPool(s);
    RoomStays(s.pool, step);
    var t := FillMoves(s, w, step);
    TryingRefills(t, w);
  }

  /** A worker past its check is preparing or ready: the list is empty. */
  lemma ActiveIsOffList(s: State, w: Work)
    requires Empty(s) && w in s.works
    ensures s.works[w].pc == Queued || s.works[w].pc == Filling || s.works[w].pc == Ready
    ensures s.works[w].pc == Filling && s.works[w].req in s.pool.holders
            ==> s.pool.holders[s.works[w].req].mode != Pool.Freeing
  {
    ReachableGood(s);
    assert WorkOk(BooksOf(s), w);
    assert LinkOk(s.pool.holders, s.busy, s.works[w].req);
    assert s.works[w].req !in s.inflight;
  }

  lemma ViableRefills(s: State, w: Work)
    requires Empty(s) && w in s.works && !Vain(BenchOf(s), w)
    ensures CanRefill(s)
  {
    var r := s.works[w].req;
    ActiveIsOffList(s, w);
    if s.works[w].pc == Ready {
      ReadyRefills(s, w);
    } else if r !in s.pool.holders {
      NotBegunRefills(s, w);
    } else if s.pool.holders[r].mode == Pool.Held {
      HeldRefills(s, w);
    } else {
      TryingRefills(s, w);
    }
  }

  /**
   A STOPPED queue with nothing in flight stays empty in every continuation until it is started, exactly
   when each worker past its status check has already failed or wants more pages than it can ever get.
   */
  lemma StoppedStaysDrained(s: State)
    requires Reachable(s) && s.status == Stopped && s.inflight == []
    ensures CanRefill(s) <==> exists w :: w in s.works && !Vain(BenchOf(s), w)
  {
    ReachableGood(s);
    if w :| w in s.works && !Vain(BenchOf(s), w) {
      ViableRefills(s, w);
    } else {
      forall run | RunOk(s, run) && NoStart(run) ensures Final(s, run).inflight == [] { RestingStaysEmpty(s, run); }
    }
  }
}
