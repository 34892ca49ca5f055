/** What holds in every reachable state of a queue, over every interleaving. */
module QueueTheorems {
  import Ring
  import Pool
  import opened Queue
  import opened QueueOwnership
  import opened QueueTids
  import opened QueueGates
  import opened QueueProof

  ghost predicate RunOk(s: State, run: seq<Action>)
    decreases |run|
  {
    run == [] || (Enabled(s, run[0]) && RunOk(Next(s, run[0]), run[1..]))
  }

  ghost function Final(s: State, run: seq<Action>): State
    requires RunOk(s, run)
    decreases |run|
  {
    if run == [] then s else Final(Next(s, run[0]), run[1..])
  }

  /** Reached from a fresh queue by a run in which no forced removal began while a completer stood at Storing. */
  ghost predicate Reachable(s: State) {
    !s.raced && exists g: Ring.Shape, n: nat, run :: RunOk(Init(g, n), run) && Final(Init(g, n), run) == s
  }

  lemma InitGood(g: Ring.Shape, n: nat)
    ensures Good(Init(g, n))
  {
    var s := Init(g, n);
    Pool.InitInv(n);
    forall r ensures BalancedFor(TallyOf(s), r) { }
    forall r ensures LinkOk(s.pool.holders, s.busy, r) { }
  }

  lemma {:induction false} RacedStays(s: State, run: seq<Action>)
    requires RunOk(s, run) && s.raced
    ensures Final(s, run).raced
    decreases |run|
  {
    if run != [] {
      RacedStep(s, run[0]);
      RacedStays(Next(s, run[0]), run[1..]);
    }
  }

  lemma {:induction false} RunGood(s: State, run: seq<Action>)
    requires Good(s) && RunOk(s, run) && !Final(s, run).raced
    ensures Good(Final(s, run))
    decreases |run|
  {
    if run != [] {
      var t := Next(s, run[0]);
      if t.raced { RacedStays(t, run[1..]); }
      StepGood(s, run[0]);
      RunGood(t, run[1..]);
    }
  }

  lemma ReachableGood(s: State)
    requires Reachable(s)
    ensures Good(s)
  {
    var g: Ring.Shape, n: nat, run :| RunOk(Init(g, n), run) && Final(Init(g, n), run) == s;
    InitGood(g, n);
    RunGood(Init(g, n), run);
  }

  lemma {:induction false} RunSnoc(s: State, run: seq<Action>, a: Action)
    requires RunOk(s, run) && Enabled(Final(s, run), a)
    ensures RunOk(s, run + [a]) && Final(s, run + [a]) == Next(Final(s, run), a)
    decreases |run|
  {
    if run == [] {
      assert (run + [a])[1..] == [];
      assert RunOk(Next(s, a), []);
    } else {
      assert (run + [a])[1..] == run[1..] + [a];
      RunSnoc(Next(s, run[0]), run[1..], a);
    }
  }

  lemma ReachableStep(s: State, a: Action)
    requires Reachable(s) && s.g.Ok() && Enabled(s, a) && !Next(s, a).raced
    ensures Reachable(Next(s, a))
  {
    var g: Ring.Shape, n: nat, run :| RunOk(Init(g, n), run) && Final(Init(g, n), run) == s;
    RunSnoc(Init(g, n), run, a);
  }

  // ---------------------------------------------------------------- exactly once

  /** A request the driver has not been given, or has given back, is nowhere in the driver. */
  lemma ReturnedIsNowhere(s: State, r: Req)
    requires Reachable(s) && r !in s.busy
    ensures var b := BooksOf(s);
            && r !in s.inflight
            && (forall w :: !WithWorker(b, r, w))
            && (forall a :: !InTmp(b, r, a) && !InHand(b, r, a))
  {
    ReachableGood(s);
    NotStartedIsNowhere(BooksOf(s), r);
  }

  /**
   A started request is in exactly one place: with one worker (which may have put it on the list), on
   the inflight list alone, on one removal's private list, or in one agent's hand; and nowhere twice.
   */
  lemma StartedIsInOnePlace(s: State, r: Req)
    requires Reachable(s) && r in s.busy
    ensures InOnePlace(BooksOf(s), r)
  {
    ReachableGood(s);
    OnePlace(BooksOf(s), r);
  }

  /** Over every run, a request is ended or requeued exactly once per start, except the start still open. */
  lemma EndedOncePerStart(s: State, r: Req)
    requires Reachable(s)
    ensures Count(s.ends, r) + Count(s.requeues, r) <= Count(s.starts, r)
    ensures Count(s.starts, r) == Count(s.ends, r) + Count(s.requeues, r) + (if r in s.busy then 1 else 0)
  {
    ReachableGood(s);
    assert BalancedFor(TallyOf(s), r);
  }

  // ---------------------------------------------------------------- the ring

  /**
   The ring never fills: used space stays within the size less the reserve, so the space left never
   underflows, and head meets tail exactly when the ring is empty.
   */
  lemma RingNeverOverfills(s: State)
    requires Reachable(s)
    ensures Ring.SpaceUsed(s.g, s.ring.head, s.ring.tail) == Ring.Total(s.ring.entries) <= s.g.size - s.g.reserved
    ensures s.ring.head == s.ring.tail <==> s.ring.entries == []
  {
    ReachableGood(s);
    Ring.SpaceUsedIsTotal(s.g, s.ring);
  }

  /** Live entries never overlap, and none crosses the end of the ring. */
  lemma EntriesNeverOverlap(s: State, i: nat, j: nat)
    requires Reachable(s) && i < j < |s.ring.entries|
    ensures var a, b := s.ring.entries[i], s.ring.entries[j];
            b.pos + b.len <= s.g.size && (a.pos + a.len <= b.pos || b.pos + b.len <= a.pos)
  {
    ReachableGood(s);
    Ring.EntriesDisjoint(s.g, s.ring, i, j);
  }

  // ---------------------------------------------------------------- entries and requests

  /** A published request whose DONE is not set has exactly one live entry, at its entry pointer. */
  lemma LiveRequestHasEntry(s: State, r: Req)
    requires Reachable(s) && r in s.busy && Live(s.busy[r])
    ensures 0 < PduOf(s.pdu, r).tid
    ensures exists k :: IsEntry(s.ring.entries, k, PduOf(s.pdu, r))
    ensures var p := PduOf(s.pdu, r);
            forall k, k' :: IsEntry(s.ring.entries, k, p) && IsEntry(s.ring.entries, k', p)
                ==> k == k'
  {
    ReachableGood(s);
    assert ReqOk(RegistryOf(s), r);
    assert TidOk(RegistryOf(s), PduOf(s.pdu, r).tid);
    forall k, k' | IsEntry(s.ring.entries, k, PduOf(s.pdu, r))
                   && IsEntry(s.ring.entries, k', PduOf(s.pdu, r))
      ensures k == k'
    {
      if k != k' { SameTidSameEntry(s.g, s.ring, k, k'); }
    }
  }

  predicate CarriesTid(s: State, r: Req, t: nat) {
    r in s.busy && Live(s.busy[r]) && PduOf(s.pdu, r).tid == t
  }

  /** Conversely every live entry is that of exactly one published request. */
  lemma LiveEntryHasRequest(s: State, k: nat)
    requires Reachable(s) && k < |s.ring.entries| && !s.ring.entries[k].op.Pad? && !s.ring.entries[k].done
    ensures exists r ::
              r in s.busy && Live(s.busy[r]) && IsEntry(s.ring.entries, k, PduOf(s.pdu, r))
    ensures forall r, q :: CarriesTid(s, r, s.ring.entries[k].tid) && CarriesTid(s, q, s.ring.entries[k].tid) ==> r == q
  {
    ReachableGood(s);
    var b := RegistryOf(s);
    var t := s.ring.entries[k].tid;
    assert EntryOk(b, k);
    assert TidOk(b, t);
    var j :| IsEntry(s.ring.entries, j, PduOf(s.pdu, s.pub[t]));
    if j != k { SameTidSameEntry(s.g, s.ring, j, k); }
    assert s.pub[t] in s.busy && Live(s.busy[s.pub[t]]);
    forall r | CarriesTid(s, r, t) ensures r == s.pub[t] { assert ReqOk(b, r); }
  }

  /** Tids grow strictly from tail to head. */
  lemma TidsGrowAlongRing(s: State, i: nat, j: nat)
    requires Reachable(s) && i < j < |s.ring.entries| && !s.ring.entries[i].op.Pad? && !s.ring.entries[j].op.Pad?
    ensures 0 < s.ring.entries[i].tid < s.ring.entries[j].tid <= s.ring.tid
  {
    ReachableGood(s);
    Ring.TidsIncrease(0, s.ring.entries, s.ring.tid, i, j);
  }

  /** On the inflight list, tid 0 marks the requests that are not published. */
  lemma ListedTids(s: State, r: Req)
    requires Own(BooksOf(s)) && Tids(RegistryOf(s)) && r in s.inflight
    ensures r in s.busy && (Unpublished(s.busy[r]) <==> PduOf(s.pdu, r).tid == 0)
  {
    assert ReqOk(RegistryOf(s), r);
    if Live(s.busy[r]) { assert TidOk(RegistryOf(s), PduOf(s.pdu, r).tid); }
  }

  lemma MatchesPublished(s: State, tid: nat)
    requires Own(BooksOf(s)) && Tids(RegistryOf(s))
    ensures var f := Find(s.inflight, s.pdu, tid);
            f.Some? ==> f.value in s.busy && (Unpublished(s.busy[f.value]) <==> tid == 0)
    ensures Find(s.inflight, s.pdu, 0).Some? <==> exists r :: r in s.inflight && r in s.busy && Unpublished(s.busy[r])
  {
    forall r | r in s.inflight
      ensures r in s.busy && (Unpublished(s.busy[r]) <==> PduOf(s.pdu, r).tid == 0)
    {
      ListedTids(s, r);
    }
  }

  /** A completion can match an unpublished request exactly when it carries tid 0 and such a request heads the match. */
  lemma CompletionMatchesPublished(s: State, tid: nat)
    requires Reachable(s)
    ensures var f := Find(s.inflight, s.pdu, tid);
            f.Some? ==> f.value in s.busy && (Unpublished(s.busy[f.value]) <==> tid == 0)
    ensures Find(s.inflight, s.pdu, 0).Some? <==> exists r :: r in s.inflight && r in s.busy && Unpublished(s.busy[r])
  {
    ReachableGood(s);
    MatchesPublished(s, tid);
  }

  /** Setting DONE always hits the live entry of the very request being completed. */
  lemma MarkHitsOwnEntry(s: State, a: AgentId)
    requires Reachable(s) && IsWorking(s, a, false)
    ensures var p := PduOf(s.pdu, s.agents[a].pc.req);
            exists k :: IsEntry(s.ring.entries, k, p)
                        && forall j :: 0 <= j < |s.ring.entries| && j != k ==> s.ring.entries[j].pos != p.se
  {
    ReachableGood(s);
    assert AgentOk(BooksOf(s), a);
    var r := s.agents[a].pc.req;
    LiveRequestHasEntry(s, r);
    var p := PduOf(s.pdu, r);
    var k :| IsEntry(s.ring.entries, k, p);
    forall j | 0 <= j < |s.ring.entries| && j != k ensures s.ring.entries[j].pos != p.se {
      Ring.PositionsDistinct(s.g, s.ring, j, k);
    }
  }

  // ---------------------------------------------------------------- pages

  /** From the end of the allocation until DONE, each segment of a request has its own page in the cache. */
  lemma CopyFindsPages(s: State, r: Req)
    requires Reachable(s) && r in s.busy && (MustHold(s.busy[r]) || Pool.In(s.pool, r, Pool.Held))
    ensures Pool.In(s.pool, r, Pool.Held) && |s.pool.holders[r].pis| == PduOf(s.pdu, r).segs
    ensures Pool.Distinct(s.pool.holders[r].pis)
    ensures forall k :: 0 <= k < |s.pool.holders[r].pis| ==> s.pool.holders[r].pis[k] in s.pool.core.xa
  {
    ReachableGood(s);
    assert LinkOk(s.pool.holders, s.busy, r);
    assert Pool.HolderOk(s.pool, r);
    assert Pool.Owns(s.pool.owner, r, s.pool.holders[r].pis);
  }

  /** Two started requests never share a page index, and a request that left holds none. */
  lemma RequestsShareNoPage(s: State, r: Req, q: Req, i: nat)
    requires Reachable(s) && r in s.pool.holders && i in s.pool.holders[r].pis
    ensures r in s.busy && i in s.pool.core.bits
    ensures q in s.pool.holders && i in s.pool.holders[q].pis ==> q == r
  {
    ReachableGood(s);
    assert LinkOk(s.pool.holders, s.busy, r);
    assert Pool.Owns(s.pool.owner, r, s.pool.holders[r].pis);
    if q in s.pool.holders { assert Pool.Owns(s.pool.owner, q, s.pool.holders[q].pis); }
  }

  // ---------------------------------------------------------------- stop and removal

  /** The worker found the queue stopping or stopped, or no memory, no data page or no ring space. */
  predicate GivesBack(s: State, a: Action) {
    a.ByWorker? && (a.worker.PiFail? || a.worker.FillFailed? || a.worker.Unlist?
        || (a.worker.Check? && (s.status == Stopping || s.status == Stopped)))
  }

  /** A completion or forced removal ends its request, or a worker meets a removing queue. */
  predicate EndsOne(s: State, a: Action) {
    (a.ByCompleter? && a.completer.End?) || (a.ByWorker? && a.worker.Check? && s.status == Removing)
  }

  /** The request an action is about, when it ends or gives back one. */
  function Subject(s: State, a: Action): Req {
    if a.ByWorker? && a.w in s.works then s.works[a.w].req
    else if a.ByCompleter? && a.a in s.agents && s.agents[a.a].pc.Working? then s.agents[a.a].pc.req
    else 0
  }

  lemma WorkerCounts(s: State, w: Work, step: WorkerStep)
    requires s.g.Ok() && WorkerCan(s, w, step)
    ensures var t := WorkerNext(s, w, step);
            && (t.ends == if EndsOne(s, ByWorker(w, step)) then Incr(s.ends, s.works[w].req) else s.ends)
            && (t.requeues == if GivesBack(s, ByWorker(w, step)) then Incr(s.requeues, s.works[w].req) else s.requeues)
  {
    match step
    case Check => ReturnFrame(s, w); PhaseFrame(s, w, Filling, Preparing(w));
    case PiFail => ReturnFrame(s, w);
    case Fill(_) =>
    case FillFailed => ReturnFrame(s, w);
    case FillDone => PhaseFrame(s, w, Ready, Prepared(w));
    case Enlist => EnlistFrame(s, w);
    case Publish(cmd) => PoolPublishStep(s, w, cmd);
    case Unlist => UnlistFrame(s, w);
    case Notify =>
  }

  lemma CompleterCounts(s: State, a: AgentId, step: CompleterStep)
    requires CompleterCan(s, a, step)
    ensures var t := CompleterNext(s, a, step);
            && (t.ends == if step.End? then Incr(s.ends, s.agents[a].pc.req) else s.ends)
            && t.requeues == s.requeues
  {
    match step
    case Take =>
    case Fetch => FetchFrame(s, a);
    case Store =>
    case Mark =>
    case FreePages(_) =>
    case End =>
    case Advance =>
    case Exit =>
  }

  lemma ControlCounts(s: State, step: ControlStep)
    requires ControlCan(s, step)
    ensures SameCounts(s, ControlNext(s, step))
  {
  }

  lemma OutsideCounts(s: State, step: OutsideStep)
    requires OutsideCan(s, step)
    ensures SameCounts(s, OutsideNext(s, step))
  {
    match step
    case QueueRq(r, op, segs) =>
    case PadDone(_) =>
    case Send(_) =>
    case Enter(_) =>
    case Remove(_, _) =>
    case Memory(_) =>
  }

  /**
   Over every action of every actor: a worker fails its request on a removing queue only, all other ends
   are completions, and a request goes back to the block layer exactly when its worker could not submit it;
   no other request's count changes.
   */
  lemma WhoEndsAndRequeues(s: State, a: Action)
    requires s.g.Ok() && Enabled(s, a)
    ensures Next(s, a).ends == if EndsOne(s, a) then Incr(s.ends, Subject(s, a)) else s.ends
    ensures Next(s, a).requeues == if GivesBack(s, a) then Incr(s.requeues, Subject(s, a)) else s.requeues
  {
    match a
    case ByWorker(w, step) => WorkerCounts(s, w, step);
    case ByCompleter(c, step) => CompleterCounts(s, c, step);
    case ByRemover(c, step) => RemoverFrame(s, c, step);
    case ByControl(step) => ControlCounts(s, step);
    case ByOutside(step) => OutsideCounts(s, step);
  }

  /** Once queue_stop has returned, a queue still STOPPING has requests in flight and no worker that could add more. */
  lemma StoppingMeansInflight(s: State)
    requires Reachable(s) && s.stopper.Idle? && s.status == Stopping && s.lock.None?
    ensures s.inflight != [] && NoneActive(s.works)
  {
    ReachableGood(s);
  }

  /** Without a store under way REMOVING is absorbing. */
  lemma {:induction false} RemovingForever(s: State, run: seq<Action>)
    requires Good(s) && !s.raced && s.status == Removing && s.lock.None? && RunOk(s, run)
    ensures var t := Final(s, run);
              t.status == Removing && t.lock.None? && !t.raced && Good(t) && (s.sealed ==> t.sealed)
    decreases |run|
  {
    if run != [] {
      RacedStep(s, run[0]);
      StepGood(s, run[0]);
      RemovingStep(s, run[0]);
      RemovingForever(Next(s, run[0]), run[1..]);
    }
  }

  lemma RemovingControl(s: State, step: ControlStep)
    requires StopGate(GateOf(s)) && s.status == Removing
    ensures !ControlCan(s, step)
  {
  }

  lemma RemovingCompleter(s: State, a: AgentId, step: CompleterStep)
    requires Gates(GateOf(s)) && s.lock.None? && CompleterCan(s, a, step)
    ensures !step.Store?
  {
    assert AgentGate(GateOf(s), a);
  }

  lemma RemovingStep(s: State, a: Action)
    requires Gates(GateOf(s)) && s.status == Removing && s.lock.None? && s.g.Ok() && Enabled(s, a)
    ensures Next(s, a).status == Removing && Next(s, a).lock.None? && (s.sealed ==> Next(s, a).sealed)
  {
    match a
    case ByWorker(w, step) => FlagsWorker(s, w, step);
    case ByCompleter(c, step) => RemovingCompleter(s, c, step); FlagsCompleter(s, c, step);
    case ByRemover(c, step) => FlagsRemover(s, c, step);
    case ByControl(step) => RemovingControl(s, step);
    case ByOutside(step) => FlagsOutside(s, step);
  }

  /** The store of a completer that read STOPPING before the removal wipes REMOVING out. */
  lemma StoreUndoesRemoval(s: State, a: AgentId, force: bool, c: AgentId)
    requires OutsideCan(s, Remove(a, force)) && c in s.agents && s.agents[c].pc.Storing?
    ensures var t := OutsideNext(s, Remove(a, force));
            exists run :: RunOk(t, run) && Final(t, run).status == Stopped
  {
    var t := OutsideNext(s, Remove(a, force));
    assert t.agents[c] == s.agents[c];
    StoreStops(t, c);
  }

  /** A completer about to write STOPPED can do so in any status. */
  lemma StoreStops(s: State, c: AgentId)
    requires s.g.Ok() && c in s.agents && s.agents[c].pc.Storing?
    ensures exists run :: RunOk(s, run) && Final(s, run).status == Stopped
  {
    var run := [ByCompleter(c, Store)];
    assert Enabled(s, run[0]) && run[1..] == [];
    assert RunOk(Next(s, run[0]), run[1..]);
    assert Final(s, run) == Next(s, run[0]);
    assert RunOk(s, run) && Final(s, run).status == Stopped;
  }

  lemma CleanRemovalSticks(s: State, a: AgentId, force: bool, run: seq<Action>)
    requires Good(s) && !s.raced && s.lock.None? && OutsideCan(s, Remove(a, force))
             && RunOk(OutsideNext(s, Remove(a, force)), run)
    ensures Final(OutsideNext(s, Remove(a, force)), run).status == Removing
  {
    GoodOutside(s, Remove(a, force));
    RemovingForever(OutsideNext(s, Remove(a, force)), run);
  }

  /**
   A removal sticks, whatever happens next, exactly when no completer is between its read of STOPPING
   and its write of STOPPED at that moment.
   */
  lemma RemovalSticks(s: State, a: AgentId, force: bool)
    requires Reachable(s) && OutsideCan(s, Remove(a, force))
    ensures var t := OutsideNext(s, Remove(a, force));
            (forall run :: RunOk(t, run) ==> Final(t, run).status == Removing) <==> s.lock.None?
  {
    ReachableGood(s);
    var t := OutsideNext(s, Remove(a, force));
    if s.lock.None? {
      forall run | RunOk(t, run) ensures Final(t, run).status == Removing { CleanRemovalSticks(s, a, force, run); }
    } else {
      StoreUndoesRemoval(s, a, force, s.lock.value);
    }
  }

  /** Not a new stop or removal. */
  predicate Keeps(a: Action) { a != ByControl(Stop) && !(a.ByOutside? && a.outside.Remove?) }

  /** Running, with nobody on the way to another status. */
  ghost predicate RunsOn(s: State) {
    s.status == Running && s.stopper.Idle? && s.lock.None? && forall a :: a in s.agents ==> !s.agents[a].pc.Storing?
  }

  lemma RunsOnWorker(s: State, w: Work, step: WorkerStep)
    requires s.g.Ok() && RunsOn(s) && WorkerCan(s, w, step)
    ensures RunsOn(WorkerNext(s, w, step))
  {
    match step
    case Check => CheckFrame(s, w);
    case PiFail => ReturnFrame(s, w);
    case Fill(_) =>
    case FillFailed => ReturnFrame(s, w);
    case FillDone => PhaseFrame(s, w, Ready, Prepared(w));
    case Enlist => EnlistFrame(s, w);
    case Publish(cmd) => PoolPublishStep(s, w, cmd);
    case Unlist => UnlistFrame(s, w);
    case Notify =>
  }

  lemma RunsOnFetch(s: State, a: AgentId)
    requires RunsOn(s) && a in s.agents && s.agents[a].pc.Took?
    ensures RunsOn(DoFetch(s, a))
  {
    FetchFrame(s, a);
  }

  /** The other steps of a completer change its own record and the stores. */
  lemma MovesFrame(s: State, a: AgentId, step: CompleterStep)
    requires CompleterCan(s, a, step) && !step.Fetch? && !step.Store?
    ensures var t := CompleterNext(s, a, step);
            && SameStatus(s, t) && t.lock == s.lock && t.agents.Keys <= s.agents.Keys
            && forall b :: b in t.agents ==> (if b == a
               && t.agents[b] != s.agents[b] then !t.agents[b].pc.Storing? else t.agents[b] == s.agents[b])
  {
    match step
    case Take =>
    case Mark =>
    case FreePages(_) =>
    case End =>
    case Advance =>
    case Exit =>
  }

  lemma RunsOnCompleter(s: State, a: AgentId, step: CompleterStep)
    requires RunsOn(s) && CompleterCan(s, a, step)
    ensures RunsOn(CompleterNext(s, a, step))
  {
    if step.Fetch? {
      RunsOnFetch(s, a);
    } else {
      assert !step.Store?;
      MovesFrame(s, a, step);
    }
  }

  lemma RunsOnRemover(s: State, a: AgentId, step: RemoverStep)
    requires RunsOn(s) && RemoverCan(s, a, step)
    ensures RunsOn(RemoverNext(s, a, step))
  {
    RemoverFrame(s, a, step);
    FlagsRemover(s, a, step);
  }

  lemma RunsOnControl(s: State, step: ControlStep)
    requires RunsOn(s) && ControlCan(s, step) && step != Stop
    ensures RunsOn(ControlNext(s, step))
  {
  }

  lemma RunsOnOutside(s: State, step: OutsideStep)
    requires RunsOn(s) && OutsideCan(s, step) && !step.Remove?
    ensures RunsOn(OutsideNext(s, step))
  {
    match step
    case QueueRq(r, op, segs) =>
    case PadDone(_) =>
    case Send(_) =>
    case Enter(_) =>
    case Memory(_) =>
  }

  lemma RunsOnStep(s: State, a: Action)
    requires s.g.Ok() && RunsOn(s) && Enabled(s, a) && Keeps(a)
    ensures RunsOn(Next(s, a))
  {
    match a
    case ByWorker(w, step) => RunsOnWorker(s, w, step);
    case ByCompleter(c, step) => RunsOnCompleter(s, c, step);
    case ByRemover(c, step) => RunsOnRemover(s, c, step);
    case ByControl(step) => RunsOnControl(s, step);
    case ByOutside(step) => RunsOnOutside(s, step);
  }

  lemma {:induction false} RunsOnForever(s: State, run: seq<Action>)
    requires RunsOn(s) && RunOk(s, run) && forall k :: 0 <= k < |run| ==> Keeps(run[k])
    ensures Final(s, run).status == Running
    decreases |run|
  {
    if run != [] {
      assert Keeps(run[0]);
      RunsOnStep(s, run[0]);
      RunsOnForever(Next(s, run[0]), run[1..]);
    }
  }

  ghost predicate StaysRunning(s: State) {
    forall run :: RunOk(s, run) && (forall k :: 0 <= k < |run| ==> Keeps(run[k])) ==> Final(s, run).status == Running
  }

  lemma StoreUndoesStart(s: State, c: AgentId)
    requires c in s.agents && s.agents[c].pc.Storing?
    ensures !StaysRunning(s)
  {
    var run := [ByCompleter(c, Store)];
    assert Enabled(s, run[0]) && run[1..] == [];
    assert RunOk(Next(s, run[0]), run[1..]);
    assert Final(s, run) == Next(s, run[0]);
    assert RunOk(s, run) && Final(s, run).status == Stopped;
  }

  /**
   The same late write undoes a start: it sticks until the next stop or removal exactly when no completer is
   about to write.
   */
  lemma StartSticks(s: State)
    requires Reachable(s) && ControlCan(s, Start)
    ensures StaysRunning(ControlNext(s, Start)) <==> s.lock.None?
  {
    ReachableGood(s);
    var t := ControlNext(s, Start);
    if s.lock.None? {
      forall a | a in t.agents ensures !t.agents[a].pc.Storing? { assert AgentGate(GateOf(s), a); }
      forall run | RunOk(t, run) && (forall k :: 0 <= k < |run| ==> Keeps(run[k]))
          ensures Final(t, run).status == Running {
        RunsOnForever(t, run);
      }
    } else {
      StoreUndoesStart(t, s.lock.value);
    }
  }

  /** When a forced removal takes the list, every request on it has been published and its entry is live. */
  lemma SpliceTakesPublishedOnly(s: State, a: AgentId, r: Req)
    requires Reachable(s) && RemoverCan(s, a, Splice) && r in s.inflight
    ensures NoneActive(s.works)
    ensures r in s.busy && s.busy[r] == Published
    ensures exists k :: IsEntry(s.ring.entries, k, PduOf(s.pdu, r))
  {
    ReachableGood(s);
    SpliceFacts(s, a);
    LiveRequestHasEntry(s, r);
  }

  /** After a forced removal took the list, it stays empty and no worker gets past its status check. */
  lemma ForcedRemovalIsFinal(s: State, run: seq<Action>)
    requires Reachable(s) && s.sealed && RunOk(s, run)
    ensures Final(s, run).inflight == [] && NoneActive(Final(s, run).works)
  {
    ReachableGood(s);
    RemovingForever(s, run);
  }
}
