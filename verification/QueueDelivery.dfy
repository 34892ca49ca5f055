/**
 What becomes of requests and completions on their way: a completion that was sent is taken once and in
 order, it reaches the request that carries its tid, that request can be ended, and the entry the
 backend saw was for the operation the request was started with.
 */
module QueueDelivery {
  import Ring
  import Pool
  import opened Queue
  import opened QueueOwnership
  import opened QueueTids
  import opened QueueGates
  import opened QueueProof
  import opened QueueTheorems

  // ---------------------------------------------------------------- completions are conserved

  function SendOf(a: Action): seq<nat> {
    if a.ByOutside? && a.outside.Send? then [a.outside.tid] else []
  }

  /** The tids the backend sends, in order. */
  function Sends(run: seq<Action>): seq<nat> {
    if run == [] then [] else SendOf(run[0]) + Sends(run[1..])
  }

  /** What a Take leaves its completer with. */
  function TookIn(t: State, a: Action): seq<nat> {
    if a.ByCompleter? && a.completer.Take? && a.a in t.agents
        && t.agents[a.a].pc.Took? then [t.agents[a.a].pc.tid] else []
  }

  /** The tids completers take, in order. */
  ghost function Takes(s: State, run: seq<Action>): seq<nat>
    requires RunOk(s, run)
    decreases |run|
  {
    if run == [] then [] else TookIn(Next(s, run[0]), run[0]) + Takes(Next(s, run[0]), run[1..])
  }

  lemma QueuedWorker(s: State, w: Work, step: WorkerStep)
    requires s.g.Ok() && WorkerCan(s, w, step)
    ensures WorkerNext(s, w, step).cq == s.cq
  {
    match step
    case Check => CheckFrame(s, w);
    case PiFail => ReturnFrame(s, w);
    case Fill(_) =>
    case FillFailed => ReturnFrame(s, w);
    case FillDone => PhaseFrame(s, w, Ready, Prepared(w));
    case Enlist => EnlistFrame(s, w);
    case Publish(cmd) => PoolPublishStep(s, w, cmd);
    case Unlist => UnlistFrame(s, w);
    case Notify =>
  }

  lemma QueuedCompleter(s: State, a: AgentId, step: CompleterStep)
    requires CompleterCan(s, a, step)
    ensures var t := CompleterNext(s, a, step); s.cq == TookIn(t, ByCompleter(a, step)) + t.cq
  {
    match step
    case Take => assert s.cq == [s.cq[0]] + s.cq[1..];
    case Fetch => FetchFrame(s, a);
    case Store =>
    case Mark =>
    case FreePages(_) =>
    case End =>
    case Advance =>
    case Exit =>
  }

  lemma QueuedControl(s: State, step: ControlStep)
    requires ControlCan(s, step)
    ensures ControlNext(s, step).cq == s.cq
  {
  }

  lemma QueuedOutside(s: State, step: OutsideStep)
    requires OutsideCan(s, step)
    ensures OutsideNext(s, step).cq == s.cq + SendOf(ByOutside(step))
  {
    match step
    case QueueRq(r, op, segs) =>
    case PadDone(_) =>
    case Send(_) =>
    case Enter(_) =>
    case Remove(_, _) =>
    case Memory(_) =>
  }

  lemma QueuedStep(s: State, a: Action)
    requires s.g.Ok() && Enabled(s, a)
    ensures s.cq + SendOf(a) == TookIn(Next(s, a), a) + Next(s, a).cq
  {
    match a
    case ByWorker(w, step) => QueuedWorker(s, w, step);
    case ByCompleter(c, step) => QueuedCompleter(s, c, step);
    case ByRemover(c, step) => RemoverFrame(s, c, step);
    case ByControl(step) => QueuedControl(s, step);
    case ByOutside(step) => QueuedOutside(s, step);
  }

  lemma Chain(x: seq<nat>, send: seq<nat>, took: seq<nat>, y: seq<nat>, sends: seq<nat>, takes: seq<nat>, z: seq<nat>)
    requires x + send == took + y && y + sends == takes + z
    ensures x + (send + sends) == (took + takes) + z
  {
    assert x + (send + sends) == (x + send) + sends;
    assert (took + y) + sends == took + (y + sends);
    assert took + (takes + z) == (took + takes) + z;
  }

  /** Over every run: what was waiting and what is sent is what is taken and what still waits, in order. */
  lemma {:induction false} CompletionsConserved(s: State, run: seq<Action>)
    requires RunOk(s, run)
    ensures s.cq + Sends(run) == Takes(s, run) + Final(s, run).cq
    decreases |run|
  {
    if run != [] {
      var t := Next(s, run[0]);
      QueuedStep(s, run[0]);
      CompletionsConserved(t, run[1..]);
      Chain(s.cq, SendOf(run[0]), TookIn(t, run[0]), t.cq, Sends(run[1..]), Takes(t, run[1..]), Final(s, run).cq);
    }
  }

  // ---------------------------------------------------------------- a completion reaches its request

  lemma FindTheOne(xs: seq<Req>, pdu: map<Req, Pdu>, tid: nat, r: Req)
    requires r in xs && PduOf(pdu, r).tid == tid
    requires forall q :: q in xs && PduOf(pdu, q).tid == tid ==> q == r
    ensures Find(xs, pdu, tid) == Pool.Some(r)
  {
  }

  /** Tids of published requests on the list are pairwise distinct. */
  lemma ListedTidsDiffer(s: State, q: Req, r: Req)
    requires Good(s) && q in s.inflight && r in s.inflight && PduOf(s.pdu, q).tid == PduOf(s.pdu, r).tid != 0
    ensures q == r
  {
    ListedTids(s, q);
    ListedTids(s, r);
    assert ReqOk(RegistryOf(s), q) && ReqOk(RegistryOf(s), r);
  }

  /**
   A completer that took the tid of a request on the list gets that request: it alone leaves the list, into the
   completer's hand.
   */
  lemma CompletionIsDelivered(s: State, a: AgentId, r: Req)
    requires Reachable(s) && CompleterCan(s, a, Fetch) && r in s.inflight && PduOf(s.pdu, r).tid == s.agents[a].pc.tid
    ensures var t := DoFetch(s, a);
            && t.inflight == Without(s.inflight, r) && t.busy == s.busy[r := Fetched(a)]
            && a in t.agents && Holding(t.agents[a].pc) && t.agents[a].pc.req == r
  {
    ReachableGood(s);
    forall q | q in s.inflight && PduOf(s.pdu, q).tid == PduOf(s.pdu, r).tid
        ensures q == r { ListedTidsDiffer(s, q, r); }
    FindTheOne(s.inflight, s.pdu, s.agents[a].pc.tid, r);
  }

  /** Any other tid finds nothing: the completer goes on to the next completion. */
  lemma UnknownIsDropped(s: State, a: AgentId)
    requires CompleterCan(s, a, Fetch) && forall r :: r in s.inflight ==> PduOf(s.pdu, r).tid != s.agents[a].pc.tid
    ensures DoFetch(s, a) == SetPc(s, a, Loop)
  {
  }

  /** What a completer took stays with it until it looks the request up. */
  lemma TookIsKept(s: State, act: Action, a: AgentId)
    requires s.g.Ok() && Enabled(s, act) && a in s.agents && s.agents[a].pc.Took? && act != ByCompleter(a, Fetch)
    ensures a in Next(s, act).agents && Next(s, act).agents[a] == s.agents[a]
  {
    match act
    case ByWorker(w, step) => TookWorker(s, w, step);
    case ByCompleter(c, step) => TookCompleter(s, c, step, a);
    case ByRemover(c, step) => TookRemover(s, c, step, a);
    case ByControl(step) => TookControl(s, step);
    case ByOutside(step) => TookOutside(s, step, a);
  }

  lemma TookWorker(s: State, w: Work, step: WorkerStep)
    requires s.g.Ok() && WorkerCan(s, w, step)
    ensures WorkerNext(s, w, step).agents == s.agents
  {
    match step
    case Check => CheckFrame(s, w);
    case PiFail => ReturnFrame(s, w);
    case Fill(_) =>
    case FillFailed => ReturnFrame(s, w);
    case FillDone => PhaseFrame(s, w, Ready, Prepared(w));
    case Enlist => EnlistFrame(s, w);
    case Publish(cmd) => PoolPublishStep(s, w, cmd);
    case Unlist => UnlistFrame(s, w);
    case Notify =>
  }

  lemma TookCompleter(s: State, c: AgentId, step: CompleterStep, a: AgentId)
    requires CompleterCan(s, c, step) && a in s.agents && s.agents[a].pc.Took? && (c == a ==> !step.Fetch?)
    ensures a in CompleterNext(s, c, step).agents && CompleterNext(s, c, step).agents[a] == s.agents[a]
  {
    match step
    case Take =>
    case Fetch => FetchFrame(s, c);
    case Store =>
    case Mark =>
    case FreePages(_) =>
    case End =>
    case Advance =>
    case Exit =>
  }

  lemma TookRemover(s: State, c: AgentId, step: RemoverStep, a: AgentId)
    requires RemoverCan(s, c, step) && a in s.agents && s.agents[a].pc.Took?
    ensures a in RemoverNext(s, c, step).agents && RemoverNext(s, c, step).agents[a] == s.agents[a]
  {
    RemoverFrame(s, c, step);
  }

  lemma TookControl(s: State, step: ControlStep)
    requires ControlCan(s, step)
    ensures ControlNext(s, step).agents == s.agents
  {
  }

  lemma TookOutside(s: State, step: OutsideStep, a: AgentId)
    requires OutsideCan(s, step) && a in s.agents
    ensures a in OutsideNext(s, step).agents && OutsideNext(s, step).agents[a] == s.agents[a]
  {
    match step
    case QueueRq(r, op, segs) =>
    case PadDone(_) =>
    case Send(_) =>
    case Enter(_) =>
    case Remove(_, _) =>
    case Memory(_) =>
  }

  // ---------------------------------------------------------------- the list keeps its order

  /** `xs` is `ys` with some elements left out. */
  predicate Sub(xs: seq<Req>, ys: seq<Req>) {
    if ys == [] then xs == []
    else (xs != [] && xs[0] == ys[0] && Sub(xs[1..], ys[1..])) || Sub(xs, ys[1..])
  }

  lemma {:induction false} SubEmpty(ys: seq<Req>)
    ensures Sub([], ys)
  {
    if ys != [] { SubEmpty(ys[1..]); }
  }

  lemma {:induction false} SubSelf(xs: seq<Req>)
    ensures Sub(xs, xs)
  {
    if xs != [] { SubSelf(xs[1..]); }
  }

  lemma {:induction false} SubWithout(xs: seq<Req>, r: Req)
    ensures Sub(Without(xs, r), xs)
  {
    if xs != [] {
      SubWithout(xs[1..], r);
      assert xs[0] != r ==> Without(xs, r)[1..] == Without(xs[1..], r);
    }
  }

  lemma {:induction false} SubAppend(xs: seq<Req>, ys: seq<Req>, zs: seq<Req>)
    requires Sub(xs, ys)
    ensures Sub(xs + zs, ys + zs)
    decreases |ys|
  {
    if ys == [] {
      assert xs + zs == zs && ys + zs == zs;
      SubSelf(zs);
    } else {
      assert (ys + zs)[1..] == ys[1..] + zs;
      if xs != [] && xs[0] == ys[0] && Sub(xs[1..], ys[1..]) {
        assert (xs + zs)[1..] == xs[1..] + zs;
        SubAppend(xs[1..], ys[1..], zs);
      } else {
        SubAppend(xs, ys[1..], zs);
      }
    }
  }

  lemma {:induction false} SubTrans(xs: seq<Req>, ys: seq<Req>, zs: seq<Req>)
    requires Sub(xs, ys) && Sub(ys, zs)
    ensures Sub(xs, zs)
    decreases |zs|
  {
    if zs != [] {
      if ys != [] && ys[0] == zs[0] && Sub(ys[1..], zs[1..]) {
        if xs != [] && xs[0] == ys[0] && Sub(xs[1..], ys[1..]) {
          SubTrans(xs[1..], ys[1..], zs[1..]);
        } else {
          SubTrans(xs, ys[1..], zs[1..]);
        }
      } else {
        SubTrans(xs, ys, zs[1..]);
      }
    }
  }

  function EnlistOf(s: State, a: Action): seq<Req> {
    if a.ByWorker? && a.worker.Enlist? && a.w in s.works then [s.works[a.w].req] else []
  }

  /** The requests workers list, in order. */
  ghost function Enlists(s: State, run: seq<Action>): seq<Req>
    requires RunOk(s, run)
    decreases |run|
  {
    if run == [] then [] else EnlistOf(s, run[0]) + Enlists(Next(s, run[0]), run[1..])
  }

  lemma OrderPublishAt(s: State, w: Work, v: Ring.View, se: nat)
    requires w in s.works
    ensures PublishAt(s, w, v, se).inflight == s.inflight
  {
  }

  lemma OrderPublish(s: State, w: Work, cmd: nat)
    requires s.g.Ok() && w in s.works
    ensures DoPublish(s, w, cmd).inflight == s.inflight
  {
    if Ring.SpaceEnough(s.g, s.ring.head, s.ring.tail, cmd) {
      var v := Ring.Submit(s.g, s.ring, cmd, PduOf(s.pdu, s.works[w].req).op);
      OrderPublishAt(s, w, v, v.entries[|v.entries| - 1].pos);
    }
  }

  lemma OrderReturn(s: State, w: Work, pc: WorkPc, loc: Loc)
    requires w in s.works
    ensures Requeue(s, w).inflight == s.inflight && Refuse(s, w).inflight == s.inflight
    ensures SetWork(s, w, pc, loc).inflight == s.inflight
  {
  }

  /** Only Enlist and Unlist are about the list. */
  lemma OrderOther(s: State, w: Work, step: WorkerStep)
    requires s.g.Ok() && WorkerCan(s, w, step) && !step.Enlist? && !step.Unlist?
    ensures WorkerNext(s, w, step).inflight == s.inflight
  {
    match step
    case Check => OrderReturn(s, w, Filling, Preparing(w));
    case PiFail => OrderReturn(s, w, Filling, Preparing(w));
    case Fill(_) =>
    case FillFailed => OrderReturn(s, w, Filling, Preparing(w));
    case FillDone => OrderReturn(s, w, Ready, Prepared(w));
    case Publish(cmd) => OrderPublish(s, w, cmd);
    case Notify =>
  }

  lemma OrderEnlist(s: State, w: Work)
    requires w in s.works
    ensures DoEnlist(s, w).inflight == s.inflight + [s.works[w].req]
    ensures DoUnlist(s, w).inflight == Without(s.inflight, s.works[w].req)
  {
  }

  lemma TakeOffList(s: State, a: AgentId, r: Req, rest: seq<Req>)
    requires a in s.agents
    ensures TakeOff(s, a, r, rest).inflight == rest
  {
  }

  lemma OrderFetch(s: State, a: AgentId)
    requires a in s.agents && s.agents[a].pc.Took?
    ensures Sub(DoFetch(s, a).inflight, s.inflight)
  {
    var f := Find(s.inflight, s.pdu, s.agents[a].pc.tid);
    SubSelf(s.inflight);
    if f.Some? {
      SubWithout(s.inflight, f.value);
      TakeOffList(s, a, f.value, Without(s.inflight, f.value));
    }
  }

  lemma OrderCompleter(s: State, a: AgentId, step: CompleterStep)
    requires CompleterCan(s, a, step)
    ensures Sub(CompleterNext(s, a, step).inflight, s.inflight)
  {
    SubSelf(s.inflight);
    match step
    case Take =>
    case Fetch => OrderFetch(s, a);
    case Store =>
    case Mark =>
    case FreePages(_) =>
    case End =>
    case Advance =>
    case Exit =>
  }

  lemma OrderRemover(s: State, a: AgentId, step: RemoverStep)
    requires RemoverCan(s, a, step)
    ensures RemoverNext(s, a, step).inflight == s.inflight || RemoverNext(s, a, step).inflight == []
  {
    match step
    case Flush =>
    case FlushDone =>
    case Splice =>
    case Pop =>
  }

  lemma OrderControl(s: State, step: ControlStep)
    requires ControlCan(s, step)
    ensures ControlNext(s, step).inflight == s.inflight
  {
  }

  lemma OrderOutside(s: State, step: OutsideStep)
    requires OutsideCan(s, step)
    ensures OutsideNext(s, step).inflight == s.inflight
  {
    match step
    case QueueRq(r, op, segs) =>
    case PadDone(_) =>
    case Send(_) =>
    case Enter(_) =>
    case Remove(_, _) =>
    case Memory(_) =>
  }

  lemma OrderWorker(s: State, w: Work, step: WorkerStep)
    requires s.g.Ok() && WorkerCan(s, w, step)
    ensures Sub(WorkerNext(s, w, step).inflight, s.inflight + EnlistOf(s, ByWorker(w, step)))
  {
    SubSelf(s.inflight + EnlistOf(s, ByWorker(w, step)));
    if step.Enlist? {
      OrderEnlist(s, w);
    } else {
      assert s.inflight + EnlistOf(s, ByWorker(w, step)) == s.inflight;
      if step.Unlist? {
        OrderEnlist(s, w);
        SubWithout(s.inflight, s.works[w].req);
      } else {
        OrderOther(s, w, step);
      }
    }
  }

  lemma OrderStep(s: State, a: Action)
    requires s.g.Ok() && Enabled(s, a)
    ensures Sub(Next(s, a).inflight, s.inflight + EnlistOf(s, a))
  {
    if !a.ByWorker? { assert s.inflight + EnlistOf(s, a) == s.inflight; }
    SubSelf(s.inflight);
    SubEmpty(s.inflight);
    match a
    case ByWorker(w, step) => OrderWorker(s, w, step);
    case ByCompleter(c, step) => OrderCompleter(s, c, step);
    case ByRemover(c, step) => OrderRemover(s, c, step);
    case ByControl(step) => OrderControl(s, step);
    case ByOutside(step) => OrderOutside(s, step);
  }

  lemma SubChain(f: seq<Req>, t: seq<Req>, s: seq<Req>, one: seq<Req>, rest: seq<Req>)
    requires Sub(t, s + one) && Sub(f, t + rest)
    ensures Sub(f, s + (one + rest))
  {
    SubAppend(t, s + one, rest);
    SubTrans(f, t + rest, (s + one) + rest);
    assert (s + one) + rest == s + (one + rest);
  }

  /** Over every run the list holds requests in the order in which workers listed them. */
  lemma {:induction false} ListKeepsOrder(s: State, run: seq<Action>)
    requires RunOk(s, run)
    ensures Sub(Final(s, run).inflight, s.inflight + Enlists(s, run))
    decreases |run|
  {
    if run == [] {
      assert s.inflight + [] == s.inflight;
      SubSelf(s.inflight);
    } else {
      var t := Next(s, run[0]);
      OrderStep(s, run[0]);
      ListKeepsOrder(t, run[1..]);
      SubChain(Final(s, run).inflight, t.inflight, s.inflight, EnlistOf(s, run[0]), Enlists(t, run[1..]));
    }
  }

  // ---------------------------------------------------------------- the entry is for what was asked

  /** The request stays started all along the run. */
  ghost predicate StaysBusy(s: State, run: seq<Action>, r: Req)
    requires RunOk(s, run)
    decreases |run|
  {
    r in s.busy && (run == [] || StaysBusy(Next(s, run[0]), run[1..], r))
  }

  predicate SameAsked(s: State, t: State, r: Req) {
    PduOf(t.pdu, r).op == PduOf(s.pdu, r).op && PduOf(t.pdu, r).segs == PduOf(s.pdu, r).segs
  }

  lemma AskedPublishAt(s: State, w: Work, v: Ring.View, se: nat, r: Req)
    requires w in s.works
    ensures SameAsked(s, PublishAt(s, w, v, se), r)
  {
    assert PublishAt(s, w, v, se).pdu == s.pdu[s.works[w].req := PduOf(s.pdu, s.works[w].req).(tid := v.tid, se := se)];
  }

  lemma AskedPublish(s: State, w: Work, cmd: nat, r: Req)
    requires s.g.Ok() && w in s.works
    ensures SameAsked(s, DoPublish(s, w, cmd), r)
  {
    if Ring.SpaceEnough(s.g, s.ring.head, s.ring.tail, cmd) {
      var v := Ring.Submit(s.g, s.ring, cmd, PduOf(s.pdu, s.works[w].req).op);
      AskedPublishAt(s, w, v, v.entries[|v.entries| - 1].pos, r);
    }
  }

  lemma AskedWorker(s: State, w: Work, step: WorkerStep, r: Req)
    requires s.g.Ok() && WorkerCan(s, w, step)
    ensures SameAsked(s, WorkerNext(s, w, step), r)
  {
    match step
    case Check => CheckFrame(s, w);
    case PiFail => ReturnFrame(s, w);
    case Fill(_) =>
    case FillFailed => ReturnFrame(s, w);
    case FillDone => PhaseFrame(s, w, Ready, Prepared(w));
    case Enlist => EnlistFrame(s, w);
    case Publish(cmd) => AskedPublish(s, w, cmd, r);
    case Unlist => UnlistFrame(s, w);
    case Notify =>
  }

  lemma AskedCompleter(s: State, a: AgentId, step: CompleterStep)
    requires CompleterCan(s, a, step)
    ensures CompleterNext(s, a, step).pdu == s.pdu
  {
    match step
    case Take =>
    case Fetch => FetchFrame(s, a);
    case Store =>
    case Mark =>
    case FreePages(_) =>
    case End =>
    case Advance =>
    case Exit =>
  }

  lemma AskedControl(s: State, step: ControlStep)
    requires ControlCan(s, step)
    ensures ControlNext(s, step).pdu == s.pdu
  {
  }

  lemma AskedOutside(s: State, step: OutsideStep, r: Req)
    requires OutsideCan(s, step) && r in s.busy
    ensures SameAsked(s, OutsideNext(s, step), r)
  {
    match step
    case QueueRq(q, op, segs) => assert DoQueueRq(s, q, op, segs).pdu == s.pdu[q := Pdu(op, segs, 0, 0)];
    case PadDone(_) =>
    case Send(_) =>
    case Enter(_) =>
    case Remove(_, _) =>
    case Memory(_) =>
  }

  lemma AskedStep(s: State, a: Action, r: Req)
    requires s.g.Ok() && Enabled(s, a) && r in s.busy
    ensures SameAsked(s, Next(s, a), r)
  {
    match a
    case ByWorker(w, step) => AskedWorker(s, w, step, r);
    case ByCompleter(c, step) => AskedCompleter(s, c, step);
    case ByRemover(c, step) => RemoverFrame(s, c, step);
    case ByControl(step) => AskedControl(s, step);
    case ByOutside(step) => AskedOutside(s, step, r);
  }

  lemma {:induction false} AskedIsKept(s: State, run: seq<Action>, r: Req)
    requires RunOk(s, run) && StaysBusy(s, run, r)
    ensures SameAsked(s, Final(s, run), r)
    decreases |run|
  {
    if run != [] {
      AskedStep(s, run[0], r);
      AskedIsKept(Next(s, run[0]), run[1..], r);
    }
  }

  /**
   The live entry of `r`, if it has one, is for `op`, and its pages, while it holds them, are one for each of
   `segs` segments.
   */
  ghost predicate AsAsked(s: State, r: Req, op: Ring.Op, segs: nat) {
    && (r in s.busy && Live(s.busy[r]) ==> exists k :: EntryFor(s, k, r, op))
    && (Pool.In(s.pool, r, Pool.Held) ==> |s.pool.holders[r].pis| == segs)
  }

  predicate EntryFor(s: State, k: nat, r: Req, op: Ring.Op) {
    IsEntry(s.ring.entries, k, PduOf(s.pdu, r)) && s.ring.entries[k].op == op
  }

  lemma LiveEntryFor(s: State, r: Req)
    requires Tids(RegistryOf(s)) && r in s.busy && Live(s.busy[r])
    ensures exists k :: EntryFor(s, k, r, PduOf(s.pdu, r).op)
  {
    assert ReqOk(RegistryOf(s), r);
    assert TidOk(RegistryOf(s), PduOf(s.pdu, r).tid);
    var k :| IsEntry(s.ring.entries, k, PduOf(s.pdu, r));
    assert EntryFor(s, k, r, PduOf(s.pdu, r).op);
  }

  lemma HeldPages(s: State, r: Req)
    requires Pool.Inv(s.pool) && Wanting(s) && Pool.In(s.pool, r, Pool.Held)
    ensures |s.pool.holders[r].pis| == PduOf(s.pdu, r).segs
  {
    assert Pool.HolderOk(s.pool, r);
  }

  lemma AsAskedNow(s: State, r: Req)
    requires Good(s)
    ensures AsAsked(s, r, PduOf(s.pdu, r).op, PduOf(s.pdu, r).segs)
  {
    if r in s.busy && Live(s.busy[r]) { LiveEntryFor(s, r); }
    if Pool.In(s.pool, r, Pool.Held) { HeldPages(s, r); }
  }

  lemma StartedGood(s: State, r: Req, op: Ring.Op, segs: nat)
    requires Reachable(s) && OutsideCan(s, QueueRq(r, op, segs))
    ensures Good(DoQueueRq(s, r, op, segs))
  {
    ReachableGood(s);
    GoodOutside(s, QueueRq(r, op, segs));
  }

  /**
   However long a request is in the driver, its live entry is for the operation it was started with, and
   while it holds its pages it holds one for each segment it was started with.
   */
  lemma EntryIsAsAsked(s: State, r: Req, op: Ring.Op, segs: nat, run: seq<Action>)
    requires Reachable(s) && OutsideCan(s, QueueRq(r, op, segs))
    requires RunOk(DoQueueRq(s, r, op, segs), run) && StaysBusy(DoQueueRq(s, r, op, segs), run, r)
    requires !Final(DoQueueRq(s, r, op, segs), run).raced
    ensures AsAsked(Final(DoQueueRq(s, r, op, segs), run), r, op, segs)
  {
    var u := DoQueueRq(s, r, op, segs);
    StartedGood(s, r, op, segs);
    RunGood(u, run);
    AskedIsKept(u, run, r);
    AsAskedNow(Final(u, run), r);
  }

  // ---------------------------------------------------------------- the status and the list

  lemma StopsWorker(s: State, w: Work, step: WorkerStep)
    requires s.g.Ok() && WorkerCan(s, w, step)
    ensures WorkerNext(s, w, step).status == s.status
  {
    FlagsWorker(s, w, step);
  }

  lemma StopsCompleter(s: State, a: AgentId, step: CompleterStep)
    requires Gates(GateOf(s)) && CompleterCan(s, a, step)
    ensures var t := CompleterNext(s, a, step); t.status == s.status || (step.Store? && t.inflight == [])
  {
    FlagsCompleter(s, a, step);
    if step.Store? { assert AgentGate(GateOf(s), a); }
  }

  lemma StopsControl(s: State, step: ControlStep)
    requires ControlCan(s, step)
    ensures var t := ControlNext(s, step);
            t.status == s.status || t.inflight == [] || (step.Stop? && t.status == Stopping)
                || (step.Start? && t.status == Running)
  {
  }

  /** A queue becomes STOPPED only with nothing in flight. */
  lemma StopsOnlyDrained(s: State, a: Action)
    requires Reachable(s) && Enabled(s, a) && s.status != Stopped && Next(s, a).status == Stopped
    ensures Next(s, a).inflight == []
  {
    ReachableGood(s);
    match a
    case ByWorker(w, step) => StopsWorker(s, w, step);
    case ByCompleter(c, step) => StopsCompleter(s, c, step);
    case ByRemover(c, step) => FlagsRemover(s, c, step);
    case ByControl(step) => StopsControl(s, step);
    case ByOutside(step) => FlagsOutside(s, step);
  }
}
