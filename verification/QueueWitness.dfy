/**
 Concrete runs, step by step, for what the driver does not guarantee: a removal and a start that are
 undone, a STOPPED queue with a request in flight, an idle ring that refuses a command it took before,
 padding that outlives a forced removal, and a page lost to a full ring.
 */
module QueueWitness {
  import Ring
  import Pool
  import opened Queue
  import opened QueueTheorems
  import opened QueueSteps
  import opened QueueIdle
  import QueueRace

  const SHAPE: Ring.Shape := Ring.Geometry(1024, 64, 64)

  const ORIGIN: State := Init(SHAPE, 4)

  /** Some run from a fresh queue ends here. */
  ghost predicate Reached(s: State) { Leads(ORIGIN, s) }

  lemma ReachedInit()
    ensures Reached(ORIGIN)
  {
    LeadsHere(ORIGIN);
  }

  lemma ReachedIsReachable(s: State)
    requires Reached(s) && !s.raced
    ensures Reachable(s)
  {
    var run :| RunOk(Init(SHAPE, 4), run) && Final(Init(SHAPE, 4), run) == s;
  }

  /** Only request 0 is in the driver, published; nothing else is going on. */
  ghost predicate Lone(s: State, v: Ring.View) {
    && s.g == SHAPE && s.status == Running && s.lock.None? && s.stopper.Idle? && !s.raced && s.cq == []
       && s.agents == map[]
    && s.ring == v && v.entries != [] && s.pool == Pool.Init(4).(holders := map[0 := NO_PAGES])
    && s.inflight == [0] && s.works == map[] && s.notifying == {}
    && PduOf(s.pdu, 0) == Pdu(Ring.Flush, 0, v.tid, v.entries[|v.entries| - 1].pos)
    && s.busy == map[0 := Published]
  }

  /** Nothing is going on. */
  ghost predicate Idle(s: State, v: Ring.View) {
    && s.g == SHAPE && s.status == Running && s.lock.None? && s.stopper.Idle? && !s.raced && s.cq == []
       && s.agents == map[]
    && s.ring == v && s.pool == Pool.Init(4)
    && s.inflight == [] && s.works == map[] && s.notifying == {} && s.busy == map[]
  }

  /** The request's worker is ready; the ring and everything else are as they were. */
  lemma ReadyOne(s: State, v: Ring.View) returns (t: State, w: Work)
    requires Reached(s) && Idle(s, v)
    ensures Reached(t)
    ensures t == s.(works := map[w := Worker(0, Ready)], nextWork := t.nextWork,
            pdu := s.pdu[0 := Pdu(Ring.Flush, 0, 0, 0)],
                    busy := map[0 := Prepared(w)], starts := t.starts, pool := s.pool.(holders := map[0 := NO_PAGES]))
  {
    w := s.nextWork;
    var s1 := BeginOne(ORIGIN, s, 0, Ring.Flush, 0);
    t := Prepare(ORIGIN, s1, w);
    assert t.works == map[w := Worker(0, Ready)] && t.pool.holders == map[0 := NO_PAGES]
        && t.busy == map[0 := Prepared(w)];
  }

  lemma ListOne(s: State, v: Ring.View) returns (t: State, w: Work)
    requires Reached(s) && Idle(s, v)
    ensures Reached(t)
    ensures t == s.(works := map[w := Worker(0, Enlisted)], nextWork := t.nextWork,
            pdu := s.pdu[0 := Pdu(Ring.Flush, 0, 0, 0)],
                    inflight := [0], busy := map[0 := Listed(w)], starts := t.starts,
                        pool := s.pool.(holders := map[0 := NO_PAGES]))
  {
    var s1;
    s1, w := ReadyOne(s, v);
    t := EnlistOne(ORIGIN, s1, w);
    assert t.works == map[w := Worker(0, Enlisted)] && t.inflight == [0] && t.busy == map[0 := Listed(w)];
  }

  lemma SubmitOne(s: State, v: Ring.View, cmd: nat) returns (t: State)
    requires Reached(s) && Idle(s, v) && Ring.CmdOk(SHAPE, cmd) && Ring.SpaceEnough(SHAPE, v.head, v.tail, cmd)
    ensures Reached(t) && Lone(t, Ring.Submit(SHAPE, v, cmd, Ring.Flush))
  {
    var s1, w := ListOne(s, v);
    var s2 := PublishListed(ORIGIN, s1, w, cmd);
    t := NotifyOne(ORIGIN, s2, w);
    assert t.works == map[] && t.busy == map[0 := Published] && t.notifying == {};
  }

  // ---------------------------------------------------------------- one completion

  /** The backend completes request 0, and completer 0 takes the completion. */
  lemma TakeOne(s: State) returns (t: State)
    requires Reached(s) && s.agents == map[] && s.cq == [] && s.status != Removing && PduOf(s.pdu, 0).tid != 0
    ensures Reached(t)
    ensures t == s.(agents := map[0 := Agent(Completer, Took(PduOf(s.pdu, 0).tid), [])], sent := t.sent)
  {
    var tid := PduOf(s.pdu, 0).tid;
    GoOutside(ORIGIN, s, Send(tid));
    var s1 := s.(cq := [tid], sent := s.sent + {tid});
    assert s1 == OutsideNext(s, Send(tid));
    GoOutside(ORIGIN, s1, Enter(0));
    var s2 := s1.(agents := map[0 := Agent(Completer, Loop, [])]);
    assert s2 == OutsideNext(s1, Enter(0)) && AgentAt(s2, 0, Loop);
    GoCompleter(ORIGIN, s2, 0, Take);
    t := CompleterNext(s2, 0, Take);
    assert t.agents == map[0 := Agent(Completer, Took(tid), [])] && t.cq == [];
  }

  /** It finds the request; a stopping queue is now drained. */
  lemma FetchOne(s: State) returns (t: State)
    requires Reached(s) && s.agents == map[] && s.cq == [] && s.status != Removing && PduOf(s.pdu, 0).tid != 0
    requires s.inflight == [0] && s.lock.None?
    ensures Reached(t)
    ensures var pc := if s.status == Stopping then Storing(0) else Working(0, false);
            t == s.(agents := map[0 := Agent(Completer, pc, [])], inflight := [], busy := s.busy[0 := Fetched(0)],
                    lock := if s.status == Stopping then Pool.Some(0) else Pool.None, sent := t.sent)
  {
    var s1 := TakeOne(s);
    GoCompleter(ORIGIN, s1, 0, Fetch);
    assert Find([0], s1.pdu, PduOf(s.pdu, 0).tid) == Pool.Some(0) && Without([0], 0) == [];
    t := TakeOff(s1, 0, 0, []);
    assert t == DoFetch(s1, 0);
    assert t.agents == map[0 := Agent(Completer, if s.status == Stopping then Storing(0) else Working(0, false), [])];
  }

  lemma EndOne(s: State, a: AgentId) returns (t: State)
    requires Reached(s) && a in s.agents && s.agents[a].pc == Working(0, true) && 0 !in s.pool.holders
    ensures Reached(t)
    ensures t == s.(agents := s.agents[a := s.agents[a].(pc := Advancing)], busy := s.busy - {0}, ends := t.ends)
  {
    assert IsWorking(s, a, true);
    GoCompleter(ORIGIN, s, a, End);
    t := DoEnd(s, a);
  }

  lemma AdvanceOne(s: State, a: AgentId) returns (t: State)
    requires Reached(s) && AgentAt(s, a, Advancing)
    ensures Reached(t)
    ensures t == s.(agents := s.agents[a := s.agents[a].(pc := Loop)], ring := Ring.Advance(s.ring))
  {
    GoCompleter(ORIGIN, s, a, Advance);
    t := SetPc(s, a, Loop).(ring := Ring.Advance(s.ring));
  }

  /** Agent `a` sets DONE for request 0, gives back its pages (it has none), ends it and advances the ring. */
  lemma FinishOne(s: State, a: AgentId) returns (t: State)
    requires Reached(s) && a in s.agents && s.agents[a].pc == Working(0, false)
    requires 0 in s.pool.holders && s.pool.holders[0] == NO_PAGES
    ensures Reached(t)
    ensures t == s.(agents := s.agents[a := s.agents[a].(pc := Loop)], busy := s.busy - {0}, ends := t.ends,
            pub := t.pub,
                    pool := s.pool.(holders := s.pool.holders - {0}),
                    ring := Ring.Advance(s.ring.(entries := Ring.MarkDone(s.ring.entries, PduOf(s.pdu, 0).se))))
  {
    var s1 := MarkOne(s, a);
    var s2 := EndOne(s1, a);
    t := AdvanceOne(s2, a);
    assert t.agents == s.agents[a := s.agents[a].(pc := Loop)];
    assert t.busy == s.busy - {0};
  }

  lemma MarkOne(s: State, a: AgentId) returns (t: State)
    requires Reached(s) && a in s.agents && s.agents[a].pc == Working(0, false)
    requires 0 in s.pool.holders && s.pool.holders[0] == NO_PAGES
    ensures Reached(t)
    ensures t == s.(agents := s.agents[a := s.agents[a].(pc := Working(0, true))], busy := s.busy[0 := Marked(a)],
            pub := t.pub,
                    pool := s.pool.(holders := s.pool.holders - {0}),
                    ring := s.ring.(entries := Ring.MarkDone(s.ring.entries, PduOf(s.pdu, 0).se)))
  {
    assert IsWorking(s, a, false);
    GoCompleter(ORIGIN, s, a, Mark);
    var s1 := DoMark(s, a);
    assert IsWorking(s1, a, true) && s1.pool == s.pool;
    var gone := Pool.Gone(0);
    assert Pool.Enabled(s1.pool, gone);
    GoCompleter(ORIGIN, s1, a, FreePages(gone));
    t := s1.(pool := s1.pool.(holders := s1.pool.holders - {0}));
    assert t == CompleterNext(s1, a, FreePages(gone));
  }

  lemma ExitOne(s: State) returns (t: State)
    requires Reached(s) && s.agents == map[0 := Agent(Completer, Loop, [])] && s.cq == []
    ensures Reached(t) && t == s.(agents := map[])
  {
    assert AgentAt(s, 0, Loop);
    GoCompleter(ORIGIN, s, 0, Exit);
    t := s.(agents := s.agents - {0});
    assert t == CompleterNext(s, 0, Exit) && t.agents == map[];
  }

  /** The ring once the newest entry is marked and what is done is reclaimed. */
  function Reclaimed(v: Ring.View): Ring.View
    requires v.entries != []
  {
    Ring.Advance(v.(entries := Ring.MarkDone(v.entries, v.entries[|v.entries| - 1].pos)))
  }

  lemma Only<V>(u: V, v: V)
    ensures map[0 := u][0 := v] == map[0 := v] && map[0 := u][0 := v] - {0} == map[] && map[0 := u] - {0} == map[]
  {
  }

  lemma FinishLone(s: State, v: Ring.View) returns (t: State)
    requires Reached(s) && Lone(s, v) && v.tid != 0
    ensures Reached(t) && t.agents == map[0 := Agent(Completer, Loop, [])] && Idle(t.(agents := map[]), Reclaimed(v))
  {
    var s1 := FetchOne(s);
    t := FinishOne(s1, 0);
    Only(Agent(Completer, Working(0, false), []), Agent(Completer, Loop, []));
    Only(Published, Fetched(0));
    Only(NO_PAGES, NO_PAGES);
  }

  /** The lone request is completed. */
  lemma CompleteOne(s: State, v: Ring.View) returns (t: State)
    requires Reached(s) && Lone(s, v) && v.tid != 0
    ensures Reached(t) && Idle(t, Reclaimed(v))
  {
    var s1 := FinishLone(s, v);
    t := ExitOne(s1);
  }

  // ---------------------------------------------------------------- an idle ring that refuses

  /** One command of `cmd` bytes, submitted and completed, leaves an idle ring with its head at `cmd`. */
  lemma IdleAt(cmd: nat) returns (s: State)
    requires 0 < cmd <= 960 && cmd % 64 == 0
    ensures Reached(s) && Idle(s, Ring.View(cmd, cmd, [], 1))
  {
    ReachedInit();
    var v := Ring.Submit(SHAPE, Ring.Init(), cmd, Ring.Flush);
    assert v == Ring.View(cmd, 0, [Ring.Entry(0, cmd, Ring.Flush, 1, false)], 1);
    var s0 := SubmitOne(ORIGIN, Ring.Init(), cmd);
    s := CompleteOne(s0, v);
    var es := Ring.MarkDone(v.entries, 0);
    assert es == [Ring.Entry(0, cmd, Ring.Flush, 1, true)];
    assert Ring.DoneCount(es) == 1 by { assert es[1..] == []; }
    assert Reclaimed(v) == Ring.View(cmd, cmd, [], 1);
  }

  /** A queue with nothing in it refuses the very command it has just carried out. */
  lemma IdleRefusalIsReachable() returns (s: State)
    ensures Reachable(s) && s.busy == map[] && s.ring.entries == [] && Ring.CmdOk(s.g, 512)
    ensures Ring.SpaceEnough(s.g, 0, 0, 512) && !Ring.SpaceEnough(s.g, s.ring.head, s.ring.tail, 512)
  {
    s := IdleAt(512);
    ReachedIsReachable(s);
  }

  // ---------------------------------------------------------------- padding that outlives a removal

  /** Padding up to the end of the ring, and a command at its start. */
  function PaddedView(done: bool): Ring.View {
    Ring.View(448, 640, [Ring.Entry(640, 384, Ring.Pad, 0, false), Ring.Entry(0, 448, Ring.Flush, 2, done)], 2)
  }

  lemma PaddingIsNeeded()
    ensures Ring.CmdOk(SHAPE, 448) && Ring.SpaceEnough(SHAPE, 640, 640, 448)
    ensures Ring.Submit(SHAPE, Ring.View(640, 640, [], 1), 448, Ring.Flush) == PaddedView(false)
  {
  }

  lemma PaddingIsKept()
    ensures Ring.Advance(PaddedView(false).(entries := Ring.MarkDone(PaddedView(false).entries, 0))) == PaddedView(true)
  {
    var es := Ring.MarkDone(PaddedView(false).entries, 0);
    assert es == PaddedView(true).entries;
  }

  lemma Padded() returns (s: State)
    ensures Reached(s) && Lone(s, PaddedView(false))
  {
    var s0 := IdleAt(640);
    PaddingIsNeeded();
    s := SubmitOne(s0, Ring.View(640, 640, [], 1), 448);
  }

  /** A forced removal up to its splice. */
  lemma RemoveForced(s: State) returns (t: State)
    requires Reached(s) && s.agents == map[] && s.stopper.Idle? && s.lock.None? && s.works == map[]
             && s.notifying == {} && !s.raced
    ensures Reached(t)
    ensures t == s.(status := Removing, agents := map[1 := Agent(Remover(true), Flushed, [])])
  {
    GoOutside(ORIGIN, s, Remove(1, true));
    var s1 := DoRemove(s, 1, true);
    assert AgentAt(s1, 1, Entered);
    GoRemover(ORIGIN, s1, 1, Flush);
    var s2 := SetPc(s1, 1, FlushWait(s1.nextWork));
    assert Drained(s2, s2.agents[1].pc.limit);
    GoRemover(ORIGIN, s2, 1, FlushDone);
    t := SetPc(s2, 1, Flushed);
    assert t.agents == map[1 := Agent(Remover(true), Flushed, [])];
  }

  /** It takes the list. */
  lemma SpliceOne(s: State) returns (t: State)
    requires Reached(s) && s.agents == map[1 := Agent(Remover(true), Flushed, [])] && s.lock.None? && s.inflight == [0]
             && s.busy == map[0 := Published]
    ensures Reached(t)
    ensures t == s.(agents := map[1 := Agent(Remover(true), Loop, [0])], inflight := [], busy := map[0 := Spliced(1)],
            sealed := true)
  {
    assert AgentAt(s, 1, Flushed);
    GoRemover(ORIGIN, s, 1, Splice);
    t := DoSplice(s, 1);
    assert t.agents == map[1 := Agent(Remover(true), Loop, [0])] && t.busy == map[0 := Spliced(1)];
  }

  /** It takes the one request on it. */
  lemma PopOne(s: State) returns (t: State)
    requires Reached(s) && s.agents == map[1 := Agent(Remover(true), Loop, [0])] && s.busy == map[0 := Spliced(1)]
    ensures Reached(t)
    ensures t == s.(agents := map[1 := Agent(Remover(true), Working(0, false), [])], busy := map[0 := Fetched(1)])
  {
    assert AgentAt(s, 1, Loop);
    GoRemover(ORIGIN, s, 1, Pop);
    assert [0][1..] == [];
    t := DoPop(s, 1);
    assert t.agents == map[1 := Agent(Remover(true), Working(0, false), [])] && t.busy == map[0 := Fetched(1)];
  }

  /** The removal ends every request and advances the ring. */
  lemma PaddedRemoval() returns (s: State)
    ensures Reached(s) && s.busy == map[] && s.sealed && !s.raced && s.ring == PaddedView(true)
    ensures s.agents == map[1 := Agent(Remover(true), Loop, [])]
  {
    var s0 := Padded();
    var s1 := RemoveForced(s0);
    var s2 := SpliceOne(s1);
    var s3 := PopOne(s2);
    s := FinishOne(s3, 1);
    PaddingIsKept();
  }

  /** The padding in front stays. */
  lemma PaddingOutlivesRemoval() returns (s: State)
    ensures Reachable(s) && Settled(s) && s.busy == map[] && s.sealed
    ensures PadInFront(s) && s.ring.tail != s.ring.head
  {
    s := PaddedRemoval();
    ReachedIsReachable(s);
  }

  // ---------------------------------------------------------------- late writes of STOPPED

  /** Request 0 is published on an otherwise idle queue. */
  lemma OnePublished() returns (s: State)
    ensures Reached(s) && Lone(s, Ring.View(64, 0, [Ring.Entry(0, 64, Ring.Flush, 1, false)], 1))
  {
    ReachedInit();
    var v := Ring.Submit(SHAPE, Ring.Init(), 64, Ring.Flush);
    assert v == Ring.View(64, 0, [Ring.Entry(0, 64, Ring.Flush, 1, false)], 1);
    s := SubmitOne(ORIGIN, Ring.Init(), 64);
  }

  /** queue_stop runs to its end while a request is in flight: the queue stays STOPPING. */
  lemma StopWithInflight(s: State) returns (t: State)
    requires Reached(s) && s.status == Running && s.stopper.Idle? && s.lock.None? && s.inflight != []
             && s.works == map[] && s.notifying == {}
    ensures Reached(t) && t == s.(status := Stopping)
  {
    GoControl(ORIGIN, s, Stop);
    var s1 := s.(status := Stopping, stopper := StopSet);
    GoControl(ORIGIN, s1, StopFlush);
    var s2 := s1.(stopper := StopWait(s.nextWork));
    assert Drained(s2, s2.stopper.limit);
    GoControl(ORIGIN, s2, StopFlushDone);
    var s3 := s2.(stopper := StopFlushed);
    GoControl(ORIGIN, s3, StopCheck);
    t := ControlNext(s3, StopCheck);
  }

  /** The moment in which a removal, or a start, is lost: both can happen, and a completer is about to write STOPPED. */
  lemma LostRemovalIsReachable() returns (s: State)
    ensures Reachable(s) && s.lock.Some? && OutsideCan(s, Remove(1, true)) && ControlCan(s, Start)
  {
    var s0 := OnePublished();
    var s1 := StopWithInflight(s0);
    s := FetchOne(s1);
    ReachedIsReachable(s);
  }

  /** A forced removal at that moment costs every guarantee that rests on its flush. */
  lemma RacedRemovalIsReachable(g: QueueRace.Guarantee) returns (s: State)
    ensures Reached(s) && !QueueRace.Holds(g, s)
  {
    var s0 := OnePublished();
    var s1 := StopWithInflight(s0);
    var s2 := FetchOne(s1);
    ReachedIsReachable(s2);
    GoOutside(ORIGIN, s2, Remove(1, true));
    s := RaceLeads(g, s2);
  }

  lemma RaceLeads(g: QueueRace.Guarantee, s: State) returns (t: State)
    requires Reachable(s) && OutsideCan(s, Remove(1, true)) && s.lock.Some? && Reached(DoRemove(s, 1, true))
    ensures Reached(t) && !QueueRace.Holds(g, t)
  {
    ReachableGood(s);
    var u, w, r := QueueRace.RaceArms(s, 1);
    t := QueueRace.ArmedBreaks(g, DoRemove(s, 1, true), u, 1, w, r);
    LeadsTrans(ORIGIN, DoRemove(s, 1, true), t);
  }

  /** Request 0 is published, the worker of request 1 is past its check, and the queue is stopping. */
  lemma StoppingWithWorker() returns (s: State, w: Work)
    ensures Reached(s) && s.status == Stopping && s.inflight == [0] && s.agents == map[] && s.cq == [] && s.lock.None?
            && !s.raced
    ensures PduOf(s.pdu, 0).tid == 1 && PduOf(s.pdu, 1).segs == 0
    ensures WorkAt(s, w, Filling) && s.works[w].req == 1 && 1 !in s.pool.holders && 1 !in s.pool.hands
  {
    var s0 := OnePublished();
    w := s0.nextWork;
    var s1 := BeginOne(ORIGIN, s0, 1, Ring.Flush, 0);
    GoControl(ORIGIN, s1, Stop);
    s := s1.(status := Stopping, stopper := StopSet);
  }

  /** The completer drains the list and stops the queue, and then the worker lists its request. */
  lemma StoppedWithInflightIsReachable() returns (s: State)
    ensures Reachable(s) && s.status == Stopped && s.inflight != []
  {
    var s0, w := StoppingWithWorker();
    var s1 := FetchOne(s0);
    GoCompleter(ORIGIN, s1, 0, Store);
    var s2 := DoStore(s1, 0);
    var s3 := Prepare(ORIGIN, s2, w);
    assert WorkAt(s3, w, Ready);
    GoWorker(ORIGIN, s3, w, Enlist);
    s := DoEnlist(s3, w);
    ReachedIsReachable(s);
  }

  // ---------------------------------------------------------------- a page lost to a full ring

  lemma FillOne(s: State, w: Work, p: Pool.Action) returns (t: State)
    requires Reached(s) && s.g.Ok() && WorkerCan(s, w, Fill(p))
    ensures Reached(t) && t == s.(pool := Pool.Next(s.pool, p))
  {
    GoWorker(ORIGIN, s, w, Fill(p));
    t := s.(pool := Pool.Next(s.pool, p));
  }

  /** The pool while request 1 asks for its one page. */
  function Asking(mode: Pool.Mode, passes: nat): Pool.State {
    Pool.Init(4).(holders := map[0 := NO_PAGES, 1 := Pool.Holder(1, [], mode, passes)])
  }

  const PAGE: Pool.Page := 7

  function Given(): Pool.State {
    var p := Asking(Pool.Filling, 1);
    p.(hands := map[1 := PAGE], core := p.core.(pageCount := 1))
  }

  function Stored(): Pool.State {
    var p := Given();
    p.(hands := map[], core := p.core.(bits := {0}, xa := map[0 := PAGE]), owner := map[0 := Pool.ByRequest(1)],
       holders := map[0 := NO_PAGES, 1 := Pool.Holder(1, [0], Pool.Filling, 0)])
  }

  lemma AskingSteps()
    ensures var p := Pool.Init(4).(holders := map[0 := NO_PAGES]);
              Pool.Next(p, Pool.Begin(1, 1)) == Asking(Pool.Filling, 0)
    ensures Pool.Enabled(Asking(Pool.Filling, 0), Pool.Pass(1, true))
    ensures Pool.Next(Asking(Pool.Filling, 0), Pool.Pass(1, true)) == Asking(Pool.NeedPage, 1)
  {
    assert Pool.FirstZero({}, 0, 4) == 0;
  }

  lemma GivenStep()
    ensures Pool.Enabled(Asking(Pool.NeedPage, 1), Pool.AllocPage(1, Pool.Some(PAGE)))
    ensures Pool.Next(Asking(Pool.NeedPage, 1), Pool.AllocPage(1, Pool.Some(PAGE))) == Given()
  {
  }

  lemma StoredStep()
    ensures Pool.Enabled(Given(), Pool.Pass(1, true))
    ensures Pool.Next(Given(), Pool.Pass(1, true)) == Stored()
  {
    var q := Pool.Next(Given(), Pool.Pass(1, true));
    assert Pool.FirstZero({}, 0, 4) == 0;
    assert Pool.Claim(Given().core, Pool.Hand(Given(), 1), true) == Pool.Got(0, true);
    assert q.holders[1] == Pool.Holder(1, [0], Pool.Filling, 0) && q.holders == Stored().holders;
    assert q.hands == Stored().hands && q.owner == Stored().owner && q.core == Stored().core;
  }

  /** Request 1 is being prepared. */
  ghost predicate Getting(s: State, w: Work) {
    Reached(s) && s.g.Ok() && WorkAt(s, w, Filling) && s.works[w].req == 1 && PduOf(s.pdu, 1).segs == 1
  }

  lemma GetStep(s: State, w: Work, p: Pool.Action, q: Pool.State) returns (t: State)
    requires Getting(s, w) && FillStep(p) && p.id == 1 && (p.Begin? ==> p.want == 1)
    requires Pool.Enabled(s.pool, p) && Pool.Next(s.pool, p) == q
    ensures Getting(t, w) && t == s.(pool := q)
  {
    t := FillOne(s, w, p);
  }

  /** Request 1 gets the page at index 0. */
  lemma GetPage(s: State, w: Work) returns (t: State)
    requires Getting(s, w) && s.pool == Pool.Init(4).(holders := map[0 := NO_PAGES])
    ensures Getting(t, w) && t == s.(pool := Stored())
  {
    AskingSteps();
    GivenStep();
    StoredStep();
    t := GetStep(s, w, Pool.Begin(1, 1), Asking(Pool.Filling, 0));
    t := GetStep(t, w, Pool.Pass(1, true), Asking(Pool.NeedPage, 1));
    t := GetStep(t, w, Pool.AllocPage(1, Pool.Some(PAGE)), Given());
    t := GetStep(t, w, Pool.Pass(1, true), Stored());
  }

  /** A ready request meets a full ring and goes back to the block layer. */
  lemma MeetFullRing(s: State, w: Work, cmd: nat) returns (t: State)
    requires Reached(s) && s.g == SHAPE && WorkAt(s, w, Ready) && s.lock.None?
    requires Ring.CmdOk(SHAPE, cmd) && !Ring.SpaceEnough(SHAPE, s.ring.head, s.ring.tail, cmd)
    ensures Reached(t) && t.pool == Pool.Abandon(s.pool, s.works[w].req) && t.raced == s.raced
  {
    GoWorker(ORIGIN, s, w, Enlist);
    var s1 := DoEnlist(s, w);
    assert WorkAt(s1, w, Enlisted);
    GoWorker(ORIGIN, s1, w, Publish(cmd));
    var s2 := s1.(works := s1.works[w := Worker(s.works[w].req, RingFull)]);
    assert s2 == DoPublish(s1, w, cmd) && WorkAt(s2, w, RingFull);
    GoWorker(ORIGIN, s2, w, Unlist);
    t := DoUnlist(s2, w);
  }

  /** Request 0 fills half of the ring, and request 1 has its page and needs the other half. */
  lemma HalfFull() returns (s: State, w: Work)
    ensures Reached(s) && s.g == SHAPE && s.lock.None? && !s.raced && s.ring.head == 512 && s.ring.tail == 0
    ensures WorkAt(s, w, Ready) && s.works[w].req == 1 && s.pool == Pool.SetMode(Stored(), 1, Pool.Held)
  {
    ReachedInit();
    var v := Ring.Submit(SHAPE, Ring.Init(), 512, Ring.Flush);
    assert v == Ring.View(512, 0, [Ring.Entry(0, 512, Ring.Flush, 1, false)], 1);
    var s0 := SubmitOne(ORIGIN, Ring.Init(), 512);
    w := s0.nextWork;
    var s1 := BeginOne(ORIGIN, s0, 1, Ring.Write, 1);
    var s2 := GetPage(s1, w);
    s := Settle(ORIGIN, s2, w);
  }

  /** The page of request 1 stays behind: the bit is set and nobody holds it. */
  lemma LostPageIsReachable() returns (s: State)
    ensures Reachable(s) && Pool.Unheld(s.pool, 0)
  {
    var s0, w := HalfFull();
    s := MeetFullRing(s0, w, 512);
    ReachedIsReachable(s);
  }
}
