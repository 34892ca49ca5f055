/**
 Reclaim of the submit ring. In every run, a settled ring is empty unless padding is in front of it.
 Forced removal can leave padding there; runs without forced removal, with a backend that marks
 padding DONE before it completes a later entry, do not.
 */
module QueueIdle {
  import Ring
  import opened Queue
  import opened QueueOwnership
  import opened QueueTids
  import opened QueueProof
  import opened QueueTheorems

  /** The part of the state that reclaim depends on. */
  datatype Yard = Yard(entries: seq<Ring.Entry>, tid: nat, sent: set<nat>, cq: seq<nat>, agents: map<AgentId, Agent>,
      pdu: map<Req, Pdu>)

  function YardOf(s: State): Yard { Yard(s.ring.entries, s.ring.tid, s.sent, s.cq, s.agents, s.pdu) }

  /** DONE has been set for its request, and advance_cmd_ring has not run since. */
  predicate WillAdvance(pc: Pc) { pc.Advancing? || (pc.Working? && pc.marked) }

  ghost predicate Reclaiming(agents: map<AgentId, Agent>) {
    exists a :: a in agents && WillAdvance(agents[a].pc)
  }

  /** The oldest real entry is not DONE. */
  predicate FrontLive(es: seq<Ring.Entry>) {
    es == [] || (if es[0].op.Pad? then FrontLive(es[1..]) else !es[0].done)
  }

  /** The backend completes nothing beyond padding it has not marked DONE. */
  ghost predicate PadsFirst(es: seq<Ring.Entry>, sent: set<nat>) {
    forall i, j :: 0 <= i < j < |es| && es[i].op.Pad? && !es[i].done && !es[j].op.Pad? ==>
          !es[j].done && es[j].tid !in sent
  }

  ghost predicate AgentOrderly(y: Yard, a: AgentId)
    requires a in y.agents
  {
    var ag := y.agents[a];
    && ag.kind != Remover(true) && ag.tmp == []
    && (ag.pc.Took? ==> ag.pc.tid in y.sent)
    && (ag.pc.Storing? || (ag.pc.Working? && !ag.pc.marked) ==> PduOf(y.pdu, ag.pc.req).tid in y.sent)
  }

  ghost predicate Orderly(y: Yard) {
    && (forall t :: t in y.sent ==> t <= y.tid)
    && (forall i :: 0 <= i < |y.cq| ==> y.cq[i] in y.sent)
    && (forall a :: a in y.agents ==> AgentOrderly(y, a))
    && PadsFirst(y.entries, y.sent)
    && (Reclaiming(y.agents) || FrontLive(y.entries))
  }

  /** What these runs exclude: forced removal, and completing past unmarked padding or what is not on the ring. */
  ghost predicate Polite(s: State, a: Action) {
    a.ByOutside? ==>
      match a.outside
      case Remove(_, force) => !force
      case Send(t) =>
        exists k :: 0 <= k < |s.ring.entries| && s.ring.entries[k].tid == t && !s.ring.entries[k].op.Pad?
                    && forall i :: 0 <= i < k && s.ring.entries[i].op.Pad? ==> s.ring.entries[i].done
      case _ => true
  }

  ghost predicate PoliteRun(s: State, run: seq<Action>)
    decreases |run|
  {
    run == [] || (Enabled(s, run[0]) && Polite(s, run[0]) && PoliteRun(Next(s, run[0]), run[1..]))
  }

  // ---------------------------------------------------------------- every run: the entry in front

  /** Someone is about to reclaim, or the oldest entry is padding or not DONE. */
  ghost predicate FrontOk(es: seq<Ring.Entry>, agents: map<AgentId, Agent>) {
    Reclaiming(agents) || es == [] || es[0].op.Pad? || !es[0].done
  }

  ghost predicate Fronted(s: State) { FrontOk(s.ring.entries, s.agents) }

  /** An agent changes its record without forgetting to advance. */
  lemma FrontAgent(es: seq<Ring.Entry>, agents: map<AgentId, Agent>, a: AgentId, ag: Agent)
    requires FrontOk(es, agents) && (a in agents && WillAdvance(agents[a].pc) ==> WillAdvance(ag.pc))
    ensures FrontOk(es, agents[a := ag])
  {
    if Reclaiming(agents) {
      var b :| b in agents && WillAdvance(agents[b].pc);
      assert b in agents[a := ag] && WillAdvance(agents[a := ag][b].pc);
    }
  }

  lemma FrontDepart(es: seq<Ring.Entry>, agents: map<AgentId, Agent>, a: AgentId)
    requires FrontOk(es, agents) && a in agents && !WillAdvance(agents[a].pc)
    ensures FrontOk(es, agents - {a})
  {
    if Reclaiming(agents) {
      var b :| b in agents && WillAdvance(agents[b].pc);
      assert b in agents - {a};
    }
  }

  lemma FrontReclaiming(es: seq<Ring.Entry>, agents: map<AgentId, Agent>, a: AgentId)
    requires a in agents && WillAdvance(agents[a].pc)
    ensures FrontOk(es, agents)
  {
  }

  lemma FrontMoves(s: State, t: State, a: AgentId, ag: Agent)
    requires Fronted(s) && t.ring.entries == s.ring.entries && t.agents == s.agents[a := ag]
    requires a in s.agents && WillAdvance(s.agents[a].pc) ==> WillAdvance(ag.pc)
    ensures Fronted(t)
  {
    FrontAgent(s.ring.entries, s.agents, a, ag);
  }

  lemma FrontPublish(s: State, w: Work, cmd: nat)
    requires RingOk(s) && Fronted(s) && w in s.works && Ring.CmdOk(s.g, cmd) && !PduOf(s.pdu, s.works[w].req).op.Pad?
    ensures Fronted(DoPublish(s, w, cmd))
  {
    PoolPublishStep(s, w, cmd);
    if Ring.SpaceEnough(s.g, s.ring.head, s.ring.tail, cmd) {
      Ring.SubmitAppends(s.g, s.ring, cmd, PduOf(s.pdu, s.works[w].req).op);
    }
  }

  lemma FrontWorker(s: State, w: Work, step: WorkerStep)
    requires RingOk(s) && Fronted(s) && WorkerCan(s, w, step)
    requires step.Publish? ==> !PduOf(s.pdu, s.works[w].req).op.Pad?
    ensures Fronted(WorkerNext(s, w, step))
  {
    match step
    case Check => CheckFrame(s, w);
    case PiFail => ReturnFrame(s, w);
    case Fill(p) =>
    case FillFailed => ReturnFrame(s, w);
    case FillDone => PhaseFrame(s, w, Ready, Prepared(w));
    case Enlist => EnlistFrame(s, w);
    case Publish(cmd) => FrontPublish(s, w, cmd);
    case Unlist => UnlistFrame(s, w);
    case Notify =>
  }

  lemma FrontFetch(s: State, a: AgentId)
    requires Fronted(s) && a in s.agents && s.agents[a].pc.Took?
    ensures Fronted(DoFetch(s, a))
  {
    FetchFrame(s, a);
    FrontMoves(s, DoFetch(s, a), a, DoFetch(s, a).agents[a]);
  }

  lemma FrontMark(s: State, a: AgentId)
    requires IsWorking(s, a, false)
    ensures Fronted(DoMark(s, a))
  {
    FrontReclaiming(DoMark(s, a).ring.entries, DoMark(s, a).agents, a);
  }

  /** advance_cmd_ring leaves no DONE entry in front. */
  lemma FrontAdvance(s: State, a: AgentId)
    requires a in s.agents
    ensures Fronted(SetPc(s, a, Loop).(ring := Ring.Advance(s.ring)))
  {
  }

  lemma FrontCompleter(s: State, a: AgentId, step: CompleterStep)
    requires Fronted(s) && CompleterCan(s, a, step)
    ensures Fronted(CompleterNext(s, a, step))
  {
    match step
    case Take => FrontMoves(s, CompleterNext(s, a, step), a, s.agents[a].(pc := Took(s.cq[0])));
    case Fetch => FrontFetch(s, a);
    case Store => FrontMoves(s, DoStore(s, a), a, s.agents[a].(pc := Working(s.agents[a].pc.req, false)));
    case Mark => FrontMark(s, a);
    case FreePages(_) =>
    case End => FrontMoves(s, DoEnd(s, a), a, s.agents[a].(pc := Advancing));
    case Advance => FrontAdvance(s, a);
    case Exit => FrontDepart(s.ring.entries, s.agents, a);
  }

  lemma FrontRemover(s: State, a: AgentId, step: RemoverStep)
    requires Fronted(s) && RemoverCan(s, a, step)
    ensures Fronted(RemoverNext(s, a, step))
  {
    RemoverFrame(s, a, step);
    FrontMoves(s, RemoverNext(s, a, step), a, RemoverNext(s, a, step).agents[a]);
  }

  lemma FrontPad(g: Ring.Geometry, v: Ring.View, k: nat, agents: map<AgentId, Agent>)
    requires g.Ok() && Ring.Valid(g, v) && FrontOk(v.entries, agents) && k < |v.entries| && v.entries[k].op.Pad?
    ensures FrontOk(Ring.MarkDone(v.entries, v.entries[k].pos), agents)
  {
    if k != 0 { Ring.PositionsDistinct(g, v, 0, k); }
  }

  lemma FrontPadDone(s: State, pos: nat)
    requires RingOk(s) && Fronted(s) && OutsideCan(s, PadDone(pos))
    ensures Fronted(OutsideNext(s, PadDone(pos)))
  {
    var k: nat :| k < |s.ring.entries| && s.ring.entries[k].pos == pos && s.ring.entries[k].op.Pad?;
    FrontPad(s.g, s.ring, k, s.agents);
  }

  lemma FrontOutside(s: State, step: OutsideStep)
    requires RingOk(s) && Fronted(s) && OutsideCan(s, step)
    ensures Fronted(OutsideNext(s, step))
  {
    match step
    case QueueRq(r, op, segs) =>
    case PadDone(pos) => FrontPadDone(s, pos);
    case Send(_) =>
    case Enter(a) => FrontMoves(s, OutsideNext(s, step), a, Agent(Completer, Loop, []));
    case Remove(a, force) => FrontMoves(s, DoRemove(s, a, force), a, Agent(Remover(force), Entered, []));
    case Memory(_) =>
  }

  lemma FrontByWorker(s: State, w: Work, step: WorkerStep)
    requires Good(s) && Fronted(s) && WorkerCan(s, w, step)
    ensures Fronted(WorkerNext(s, w, step))
  {
    if w in s.works { WorkerNeeds(s, w); }
    FrontWorker(s, w, step);
  }

  lemma FrontStep(s: State, a: Action)
    requires Good(s) && Fronted(s) && Enabled(s, a)
    ensures Fronted(Next(s, a))
  {
    match a
    case ByWorker(w, step) => FrontByWorker(s, w, step);
    case ByCompleter(c, step) => FrontCompleter(s, c, step);
    case ByRemover(c, step) => FrontRemover(s, c, step);
    case ByControl(step) => IdleControl(s, step);
    case ByOutside(step) => FrontOutside(s, step);
  }

  lemma {:induction false} RunFronted(s: State, run: seq<Action>)
    requires Good(s) && Fronted(s) && RunOk(s, run) && !Final(s, run).raced
    ensures Fronted(Final(s, run))
    decreases |run|
  {
    if run != [] {
      var t := Next(s, run[0]);
      if t.raced { RacedStays(t, run[1..]); }
      StepGood(s, run[0]);
      FrontStep(s, run[0]);
      RunFronted(t, run[1..]);
    }
  }

  lemma ReachableFronted(s: State)
    requires Reachable(s)
    ensures Fronted(s)
  {
    var g: Ring.Shape, n: nat, run :| RunOk(Init(g, n), run) && Final(Init(g, n), run) == s;
    InitGood(g, n);
    RunFronted(Init(g, n), run);
  }

  /** No request is published and unfinished, and every agent that set DONE has run its advance. */
  ghost predicate Settled(s: State) {
    && (forall r :: r in s.busy ==> !Live(s.busy[r]))
    && !Reclaiming(s.agents)
  }

  predicate PadInFront(s: State) { s.ring.entries != [] && s.ring.entries[0].op.Pad? }

  lemma UndoneEntryIsLive(b: Registry, i: nat)
    requires Tids(b) && i < |b.ring.entries| && !b.ring.entries[i].op.Pad?
    ensures b.ring.entries[i].done || exists r :: r in b.busy && Live(b.busy[r])
  {
    assert EntryOk(b, i);
    if !b.ring.entries[i].done { assert TidOk(b, b.ring.entries[i].tid); }
  }

  /**
   In every reachable state, whatever the backend did and whoever was removed: once no request is
   published and unfinished and the advances have run, tail equals head exactly when the oldest entry
   is not padding.
   */
  lemma SettledRingIsEmpty(s: State)
    requires Reachable(s) && Settled(s)
    ensures s.ring.tail == s.ring.head <==> !PadInFront(s)
    ensures s.ring.tail == s.ring.head <==> s.ring.entries == []
  {
    ReachableGood(s);
    ReachableFronted(s);
    Ring.SpaceUsedIsTotal(s.g, s.ring);
    if s.ring.entries != [] && !PadInFront(s) { UndoneEntryIsLive(RegistryOf(s), 0); }
  }

  // ---------------------------------------------------------------- the oldest real entry

  lemma {:induction false} FrontLiveSnoc(es: seq<Ring.Entry>, e: Ring.Entry)
    requires FrontLive(es) && (e.op.Pad? || !e.done)
    ensures FrontLive(es + [e])
  {
    if es == [] {
      assert (es + [e])[1..] == [];
    } else if es[0].op.Pad? {
      FrontLiveSnoc(es[1..], e);
      assert (es + [e])[1..] == es[1..] + [e];
    }
  }

  lemma {:induction false} FrontLiveWhenNoneDone(es: seq<Ring.Entry>)
    requires forall i :: 0 <= i < |es| && !es[i].op.Pad? ==> !es[i].done
    ensures FrontLive(es)
  {
    if es != [] && es[0].op.Pad? {
      forall i | 0 <= i < |es[1..]| && !es[1..][i].op.Pad? ensures !es[1..][i].done { assert es[1..][i] == es[i + 1]; }
      FrontLiveWhenNoneDone(es[1..]);
    }
  }

  lemma {:induction false} FrontLivePadMark(es: seq<Ring.Entry>, pos: nat)
    requires FrontLive(es) && forall i :: 0 <= i < |es| && es[i].pos == pos ==> es[i].op.Pad?
    ensures FrontLive(Ring.MarkDone(es, pos))
  {
    if es != [] {
      assert Ring.MarkDone(es, pos)[1..] == Ring.MarkDone(es[1..], pos);
      if es[0].op.Pad? {
        forall i | 0 <= i < |es[1..]| && es[1..][i].pos == pos
            ensures es[1..][i].op.Pad? { assert es[1..][i] == es[i + 1]; }
        FrontLivePadMark(es[1..], pos);
      } else {
        assert es[0].pos != pos;
      }
    }
  }

  lemma {:induction false} FrontLiveAllDone(es: seq<Ring.Entry>)
    requires FrontLive(es) && forall i :: 0 <= i < |es| && !es[i].op.Pad? ==> es[i].done
    ensures forall i :: 0 <= i < |es| ==> es[i].op.Pad?
  {
    if es != [] {
      assert es[0].op.Pad?;
      forall i | 0 <= i < |es[1..]| && !es[1..][i].op.Pad? ensures es[1..][i].done { assert es[1..][i] == es[i + 1]; }
      FrontLiveAllDone(es[1..]);
      forall i | 0 <= i < |es| ensures es[i].op.Pad? { if i > 0 { assert es[1..][i - 1] == es[i]; } }
    }
  }

  // ---------------------------------------------------------------- changes to the yard

  /** An agent changes its record without forgetting to advance. */
  lemma OrderlyAgent(y: Yard, a: AgentId, ag: Agent)
    requires Orderly(y) && AgentOrderly(y.(agents := y.agents[a := ag]), a)
    requires a in y.agents && WillAdvance(y.agents[a].pc) ==> WillAdvance(ag.pc)
    ensures Orderly(y.(agents := y.agents[a := ag]))
  {
    var z := y.(agents := y.agents[a := ag]);
    forall b | b in z.agents ensures AgentOrderly(z, b) { if b != a { assert AgentOrderly(y, b); } }
    if Reclaiming(y.agents) {
      var b :| b in y.agents && WillAdvance(y.agents[b].pc);
      assert b in z.agents && WillAdvance(z.agents[b].pc);
    }
  }

  lemma OrderlyDepart(y: Yard, a: AgentId)
    requires Orderly(y) && a in y.agents && !WillAdvance(y.agents[a].pc)
    ensures Orderly(y.(agents := y.agents - {a}))
  {
    var z := y.(agents := y.agents - {a});
    forall b | b in z.agents ensures AgentOrderly(z, b) { assert AgentOrderly(y, b); }
    if Reclaiming(y.agents) {
      var b :| b in y.agents && WillAdvance(y.agents[b].pc);
      assert b in z.agents;
    }
  }

  /** The request data of requests in nobody's hand may change. */
  lemma OrderlyPdu(y: Yard, r: Req, p: Pdu)
    requires Orderly(y)
    requires forall a :: a in y.agents && Holding(y.agents[a].pc) ==> y.agents[a].pc.req != r
    ensures Orderly(y.(pdu := y.pdu[r := p]))
  {
    var z := y.(pdu := y.pdu[r := p]);
    forall b | b in z.agents ensures AgentOrderly(z, b) { assert AgentOrderly(y, b); }
  }

  /** `[PAD,] entry` with a new tid is appended. */
  lemma OrderlyAppend(y: Yard, e: Ring.Entry, tid: nat)
    requires Orderly(y) && !e.done && y.tid <= tid && (e.op.Pad? || y.tid < e.tid)
    ensures Orderly(y.(entries := y.entries + [e], tid := tid))
  {
    var z := y.(entries := y.entries + [e], tid := tid);
    forall b | b in z.agents ensures AgentOrderly(z, b) { assert AgentOrderly(y, b); }
    if FrontLive(y.entries) { FrontLiveSnoc(y.entries, e); }
  }

  lemma OrderlySend(y: Yard, t: nat, k: nat)
    requires Orderly(y) && t <= y.tid && k < |y.entries| && y.entries[k].tid == t
    requires forall i :: 0 <= i < k && y.entries[i].op.Pad? ==> y.entries[i].done
    requires forall j :: 0 <= j < |y.entries| && !y.entries[j].op.Pad? && y.entries[j].tid == t ==> j == k
    ensures Orderly(y.(sent := y.sent + {t}, cq := y.cq + [t]))
  {
    var z := y.(sent := y.sent + {t}, cq := y.cq + [t]);
    forall b | b in z.agents ensures AgentOrderly(z, b) { assert AgentOrderly(y, b); }
  }

  lemma OrderlyPad(y: Yard, pos: nat)
    requires Orderly(y) && forall i :: 0 <= i < |y.entries| && y.entries[i].pos == pos ==> y.entries[i].op.Pad?
    ensures Orderly(y.(entries := Ring.MarkDone(y.entries, pos)))
  {
    var z := y.(entries := Ring.MarkDone(y.entries, pos));
    forall b | b in z.agents ensures AgentOrderly(z, b) { assert AgentOrderly(y, b); }
    if FrontLive(y.entries) { FrontLivePadMark(y.entries, pos); }
  }

  /** A completer marks the entry of a tid the backend completed. */
  lemma OrderlyMark(y: Yard, pos: nat, a: AgentId, ag: Agent)
    requires Orderly(y) && a in y.agents && ag.kind == y.agents[a].kind && ag.tmp == y.agents[a].tmp
             && WillAdvance(ag.pc)
    requires forall i :: 0 <= i < |y.entries| && y.entries[i].pos == pos ==> y.entries[i].tid in y.sent
    ensures Orderly(y.(entries := Ring.MarkDone(y.entries, pos), agents := y.agents[a := ag]))
  {
    var z := y.(entries := Ring.MarkDone(y.entries, pos), agents := y.agents[a := ag]);
    assert AgentOrderly(y, a);
    forall b | b in z.agents ensures AgentOrderly(z, b) { if b != a { assert AgentOrderly(y, b); } }
    assert a in z.agents && WillAdvance(z.agents[a].pc);
  }

  /** advance_cmd_ring leaves a live entry in front, behind padding at most. */
  lemma OrderlyAdvance(y: Yard, a: AgentId)
    requires Orderly(y) && a in y.agents && y.agents[a].pc.Advancing?
    ensures Orderly(y.(entries := y.entries[Ring.DoneCount(y.entries)..],
            agents := y.agents[a := y.agents[a].(pc := Loop)]))
  {
    var n := Ring.DoneCount(y.entries);
    var es := y.entries[n..];
    var z := y.(entries := es, agents := y.agents[a := y.agents[a].(pc := Loop)]);
    forall b | b in z.agents ensures AgentOrderly(z, b) { assert AgentOrderly(y, b); }
    if es != [] {
      assert !es[0].done;
      if es[0].op.Pad? {
        forall i | 0 <= i < |es| && !es[i].op.Pad?
            ensures !es[i].done { assert es[i] == y.entries[n + i] && es[0] == y.entries[n]; }
        FrontLiveWhenNoneDone(es);
      }
    }
  }

  // ---------------------------------------------------------------- steps

  /** No agent holds a request that is not in an agent's hand. */
  lemma NotHeld(b: Books, r: Req)
    requires Own(b) && (r !in b.busy || Unpublished(b.busy[r]))
    ensures forall a :: a in b.agents && Holding(b.agents[a].pc) ==> b.agents[a].pc.req != r
  {
    forall a | a in b.agents && Holding(b.agents[a].pc) ensures b.agents[a].pc.req != r { assert AgentOk(b, a); }
  }

  lemma IdlePublishAt(s: State, w: Work, v: Ring.View, pads: seq<Ring.Entry>, e: Ring.Entry)
    requires Orderly(YardOf(s)) && Own(BooksOf(s)) && w in s.works
    requires v.entries == s.ring.entries + pads + [e] && v.tid == s.ring.tid + 1
    requires |pads| <= 1 && (pads != [] ==> pads[0].op.Pad? && !pads[0].done) && e.tid == v.tid && !e.done && !e.op.Pad?
    ensures Orderly(YardOf(PublishAt(s, w, v, e.pos)))
  {
    var y := YardOf(s);
    var r := s.works[w].req;
    var p := PduOf(s.pdu, r).(tid := v.tid, se := e.pos);
    OwnFacts(s, w, 0);
    NotHeld(BooksOf(s), r);
    var y1 := y.(entries := y.entries + pads);
    if pads == [] {
      assert y.entries + pads == y.entries && y1 == y;
    } else {
      assert pads == [pads[0]];
      OrderlyAppend(y, pads[0], y.tid);
    }
    OrderlyAppend(y1, e, v.tid);
    var y2 := y1.(entries := y1.entries + [e], tid := v.tid);
    OrderlyPdu(y2, r, p);
    assert YardOf(PublishAt(s, w, v, e.pos)) == y2.(pdu := y2.pdu[r := p]);
  }

  lemma IdlePublish(s: State, w: Work, cmd: nat)
    requires RingOk(s) && Orderly(YardOf(s)) && Own(BooksOf(s)) && w in s.works && Ring.CmdOk(s.g, cmd)
             && !PduOf(s.pdu, s.works[w].req).op.Pad?
    ensures Orderly(YardOf(DoPublish(s, w, cmd)))
  {
    if Ring.SpaceEnough(s.g, s.ring.head, s.ring.tail, cmd) {
      var op := PduOf(s.pdu, s.works[w].req).op;
      var v := Ring.Submit(s.g, s.ring, cmd, op);
      Ring.SubmitAppends(s.g, s.ring, cmd, op);
      IdlePublishAt(s, w, v, Ring.PadFor(s.g, s.ring, cmd), v.entries[|v.entries| - 1]);
    } else {
      assert YardOf(DoPublish(s, w, cmd)) == YardOf(s);
    }
  }

  lemma IdleWorker(s: State, w: Work, step: WorkerStep)
    requires RingOk(s) && Orderly(YardOf(s)) && Own(BooksOf(s)) && WorkerCan(s, w, step)
    requires step.Publish? ==> !PduOf(s.pdu, s.works[w].req).op.Pad?
    ensures Orderly(YardOf(WorkerNext(s, w, step)))
  {
    match step
    case Check => CheckFrame(s, w); assert YardOf(DoCheck(s, w)) == YardOf(s);
    case PiFail => ReturnFrame(s, w); assert YardOf(Requeue(s, w)) == YardOf(s);
    case Fill(p) => assert YardOf(WorkerNext(s, w, step)) == YardOf(s);
    case FillFailed => ReturnFrame(s, w); assert YardOf(WorkerNext(s, w, step)) == YardOf(s);
    case FillDone => PhaseFrame(s, w, Ready,
        Prepared(w)); assert YardOf(SetWork(s, w, Ready, Prepared(w))) == YardOf(s);
    case Enlist => EnlistFrame(s, w); assert YardOf(DoEnlist(s, w)) == YardOf(s);
    case Publish(cmd) => IdlePublish(s, w, cmd);
    case Unlist => UnlistFrame(s, w); assert YardOf(DoUnlist(s, w)) == YardOf(s);
    case Notify => assert YardOf(WorkerNext(s, w, step)) == YardOf(s);
  }

  lemma IdleTakeOff(s: State, a: AgentId, r: Req, rest: seq<Req>)
    requires Orderly(YardOf(s)) && a in s.agents && s.agents[a].pc.Took? && PduOf(s.pdu, r).tid == s.agents[a].pc.tid
    ensures Orderly(YardOf(TakeOff(s, a, r, rest)))
  {
    var y := YardOf(s);
    var pc := if s.status == Stopping && rest == [] then Storing(r) else Working(r, false);
    assert YardOf(TakeOff(s, a, r, rest)) == y.(agents := y.agents[a := y.agents[a].(pc := pc)]);
    assert AgentOrderly(y, a);
    OrderlyAgent(y, a, y.agents[a].(pc := pc));
  }

  lemma IdleFetch(s: State, a: AgentId)
    requires Orderly(YardOf(s)) && a in s.agents && s.agents[a].pc.Took?
    ensures Orderly(YardOf(DoFetch(s, a)))
  {
    var f := Find(s.inflight, s.pdu, s.agents[a].pc.tid);
    if f.Some? {
      IdleTakeOff(s, a, f.value, Without(s.inflight, f.value));
    } else {
      IdleMove(s, SetPc(s, a, Loop), a, Loop);
    }
  }

  lemma IdleMark(s: State, a: AgentId)
    requires RingOk(s) && Orderly(YardOf(s)) && Own(BooksOf(s)) && Tids(RegistryOf(s)) && IsWorking(s, a, false)
    ensures Orderly(YardOf(DoMark(s, a)))
  {
    var y := YardOf(s);
    var r := s.agents[a].pc.req;
    var p := PduOf(s.pdu, r);
    var ag := s.agents[a].(pc := Working(r, true));
    assert AgentOk(BooksOf(s), a) && AgentOrderly(y, a);
    assert ReqOk(RegistryOf(s), r) && TidOk(RegistryOf(s), p.tid);
    var k :| IsEntry(s.ring.entries, k, p);
    forall i | 0 <= i < |y.entries| && y.entries[i].pos == p.se ensures y.entries[i].tid in y.sent {
      if i != k { Ring.PositionsDistinct(s.g, s.ring, i, k); }
    }
    assert YardOf(DoMark(s, a)) == y.(entries := Ring.MarkDone(y.entries, p.se), agents := y.agents[a := ag]);
    OrderlyMark(y, p.se, a, ag);
  }

  lemma IdleMove(s: State, t: State, a: AgentId, pc: Pc)
    requires Orderly(YardOf(s)) && a in s.agents
    requires YardOf(t) == YardOf(s).(agents := s.agents[a := s.agents[a].(pc := pc)])
    requires WillAdvance(s.agents[a].pc) ==> WillAdvance(pc)
    requires pc.Took? ==> pc.tid in s.sent
    requires pc.Storing? || (pc.Working? && !pc.marked) ==> PduOf(s.pdu, pc.req).tid in s.sent
    ensures Orderly(YardOf(t))
  {
    assert AgentOrderly(YardOf(s), a);
    OrderlyAgent(YardOf(s), a, s.agents[a].(pc := pc));
  }

  lemma IdleTake(s: State, a: AgentId)
    requires Orderly(YardOf(s)) && CompleterCan(s, a, Take)
    ensures Orderly(YardOf(CompleterNext(s, a, Take)))
  {
    assert s.cq[0] in s.sent;
    var mid := SetPc(s, a, Took(s.cq[0]));
    IdleMove(s, mid, a, Took(s.cq[0]));
    var y, z := YardOf(mid), YardOf(CompleterNext(s, a, Take));
    assert z == y.(cq := y.cq[1..]);
    forall b | b in z.agents ensures AgentOrderly(z, b) { assert AgentOrderly(y, b); }
    forall i | 0 <= i < |z.cq| ensures z.cq[i] in z.sent { assert z.cq[i] == y.cq[i + 1]; }
  }

  lemma IdleAdvance(s: State, a: AgentId)
    requires Orderly(YardOf(s)) && CompleterCan(s, a, Advance)
    ensures Orderly(YardOf(CompleterNext(s, a, Advance)))
  {
    var y := YardOf(s);
    OrderlyAdvance(y, a);
    assert YardOf(CompleterNext(s, a, Advance))
        == y.(entries := y.entries[Ring.DoneCount(y.entries)..], agents := y.agents[a := y.agents[a].(pc := Loop)]);
  }

  lemma IdleCompleter(s: State, a: AgentId, step: CompleterStep)
    requires RingOk(s) && Orderly(YardOf(s)) && Own(BooksOf(s)) && Tids(RegistryOf(s)) && CompleterCan(s, a, step)
    ensures Orderly(YardOf(CompleterNext(s, a, step)))
  {
    assert AgentOrderly(YardOf(s), a);
    match step
    case Take => IdleTake(s, a);
    case Fetch => IdleFetch(s, a);
    case Store => IdleMove(s, DoStore(s, a), a, Working(s.agents[a].pc.req, false));
    case Mark => IdleMark(s, a);
    case FreePages(_) => assert YardOf(CompleterNext(s, a, step)) == YardOf(s);
    case End => IdleMove(s, DoEnd(s, a), a, Advancing);
    case Advance => IdleAdvance(s, a);
    case Exit => OrderlyDepart(YardOf(s), a);
  }

  /** Without forced removals no private list exists, and a removal only flushes. */
  lemma IdleRemover(s: State, a: AgentId, step: RemoverStep)
    requires Orderly(YardOf(s)) && RemoverCan(s, a, step)
    ensures Orderly(YardOf(RemoverNext(s, a, step)))
  {
    assert AgentOrderly(YardOf(s), a);
    match step
    case Flush => IdleMove(s, SetPc(s, a, FlushWait(s.nextWork)), a, FlushWait(s.nextWork));
    case FlushDone => IdleMove(s, SetPc(s, a, Flushed), a, Flushed);
    case Splice => assert false;
    case Pop => assert false;
  }

  lemma IdleSend(s: State, t: nat)
    requires RingOk(s) && Orderly(YardOf(s)) && Polite(s, ByOutside(Send(t))) && t != 0
    ensures Orderly(YardOf(OutsideNext(s, Send(t))))
  {
    var es := s.ring.entries;
    var k: nat :| k < |es| && es[k].tid == t && !es[k].op.Pad? && forall i ::
          0 <= i < k && es[i].op.Pad? ==> es[i].done;
    Ring.GrowingBounds(0, es, s.ring.tid, k);
    forall j | 0 <= j < |es| && !es[j].op.Pad? && es[j].tid == t ensures j == k {
      if j != k { SameTidSameEntry(s.g, s.ring, j, k); }
    }
    OrderlySend(YardOf(s), t, k);
  }

  lemma IdlePadDone(s: State, pos: nat)
    requires RingOk(s) && Orderly(YardOf(s)) && OutsideCan(s, PadDone(pos))
    ensures Orderly(YardOf(OutsideNext(s, PadDone(pos))))
  {
    var es := s.ring.entries;
    var k: nat :| k < |es| && es[k].pos == pos && es[k].op.Pad?;
    forall i | 0 <= i < |es| && es[i].pos == pos ensures es[i].op.Pad? {
      if i != k { Ring.PositionsDistinct(s.g, s.ring, i, k); }
    }
    OrderlyPad(YardOf(s), pos);
  }

  lemma IdleOutside(s: State, step: OutsideStep)
    requires RingOk(s) && Orderly(YardOf(s)) && Own(BooksOf(s)) && OutsideCan(s, step) && Polite(s, ByOutside(step))
    ensures Orderly(YardOf(OutsideNext(s, step)))
  {
    var y := YardOf(s);
    match step
    case QueueRq(r, op, segs) =>
      NotHeld(BooksOf(s), r);
      assert YardOf(DoQueueRq(s, r, op, segs)) == y.(pdu := y.pdu[r := Pdu(op, segs, 0, 0)]);
      OrderlyPdu(y, r, Pdu(op, segs, 0, 0));
    case PadDone(pos) => IdlePadDone(s, pos);
    case Send(t) => IdleSend(s, t);
    case Enter(a) => OrderlyAgent(y, a, Agent(Completer, Loop, []));
    case Remove(a, force) =>
      assert YardOf(DoRemove(s, a, force)) == y.(agents := y.agents[a := Agent(Remover(force), Entered, [])]);
      OrderlyAgent(y, a, Agent(Remover(force), Entered, []));
    case Memory(p) => assert YardOf(OutsideNext(s, step)) == y;
  }

  lemma IdleControl(s: State, step: ControlStep)
    requires ControlCan(s, step)
    ensures YardOf(ControlNext(s, step)) == YardOf(s)
  {
    match step
    case Stop =>
    case StopFlush =>
    case StopFlushDone =>
    case StopCheck =>
    case Start =>
  }

  lemma IdleByWorker(s: State, w: Work, step: WorkerStep)
    requires Good(s) && Orderly(YardOf(s)) && WorkerCan(s, w, step)
    ensures Orderly(YardOf(WorkerNext(s, w, step)))
  {
    if w in s.works { WorkerNeeds(s, w); }
    IdleWorker(s, w, step);
  }

  lemma IdleStep(s: State, a: Action)
    requires Good(s) && Orderly(YardOf(s)) && Enabled(s, a) && Polite(s, a)
    ensures Orderly(YardOf(Next(s, a)))
  {
    match a
    case ByWorker(w, step) => IdleByWorker(s, w, step);
    case ByCompleter(c, step) => IdleCompleter(s, c, step);
    case ByRemover(c, step) => IdleRemover(s, c, step);
    case ByControl(step) => IdleControl(s, step);
    case ByOutside(step) => IdleOutside(s, step);
  }

  // ---------------------------------------------------------------- the result

  lemma {:induction false} PoliteRunIsRun(s: State, run: seq<Action>)
    requires PoliteRun(s, run)
    ensures RunOk(s, run)
    decreases |run|
  {
    if run != [] { PoliteRunIsRun(Next(s, run[0]), run[1..]); }
  }

  lemma {:induction false} PoliteRunOrderly(s: State, run: seq<Action>)
    requires Good(s) && Orderly(YardOf(s)) && PoliteRun(s, run) && RunOk(s, run) && !Final(s, run).raced
    ensures Good(Final(s, run)) && Orderly(YardOf(Final(s, run)))
    decreases |run|
  {
    if run != [] {
      var t := Next(s, run[0]);
      if t.raced { RacedStays(t, run[1..]); }
      StepGood(s, run[0]);
      IdleStep(s, run[0]);
      PoliteRunOrderly(t, run[1..]);
    }
  }

  /** With an orderly backend the padding in front went with the entries behind it. */
  lemma OrderlyHasNoPadInFront(s: State)
    requires RingOk(s) && Tids(RegistryOf(s)) && Orderly(YardOf(s)) && Settled(s)
    ensures !PadInFront(s)
  {
    var es := s.ring.entries;
    forall i | 0 <= i < |es| && !es[i].op.Pad? ensures es[i].done {
      UndoneEntryIsLive(RegistryOf(s), i);
    }
    FrontLiveAllDone(es);
  }

  lemma OrderlyRingIsEmpty(s: State)
    requires Reachable(s) && Orderly(YardOf(s)) && Settled(s)
    ensures s.ring.tail == s.ring.head && s.ring.entries == []
  {
    ReachableGood(s);
    OrderlyHasNoPadInFront(s);
    SettledRingIsEmpty(s);
  }

  lemma PoliteRunEnds(g: Ring.Shape, n: nat, run: seq<Action>)
    requires PoliteRun(Init(g, n), run) && RunOk(Init(g, n), run) && !Final(Init(g, n), run).raced
    ensures Reachable(Final(Init(g, n), run)) && Orderly(YardOf(Final(Init(g, n), run)))
  {
    InitGood(g, n);
    PoliteRunOrderly(Init(g, n), run);
  }

  /**
   Over every run without forced removal whose backend marks padding before completing past it: a
   settled ring has tail equal to head.
   */
  lemma IdleRingIsEmpty(g: Ring.Shape, n: nat, run: seq<Action>)
    requires PoliteRun(Init(g, n), run) && RunOk(Init(g, n), run)
    requires !Final(Init(g, n), run).raced && Settled(Final(Init(g, n), run))
    ensures Final(Init(g, n), run).ring.tail == Final(Init(g, n), run).ring.head
    ensures Final(Init(g, n), run).ring.entries == []
  {
    PoliteRunEnds(g, n, run);
    OrderlyRingIsEmpty(Final(Init(g, n), run));
  }
}
