/** Runs, one step at a time: what a state leads to, and what the common steps make of it. */
module QueueSteps {
  import Ring
  import Pool
  import opened Queue
  import opened QueueTheorems

  /** Some run from `o` ends in `s`. */
  ghost predicate Leads(o: State, s: State) {
    exists run :: RunOk(o, run) && Final(o, run) == s
  }

  lemma LeadsHere(o: State)
    ensures Leads(o, o)
  {
    assert RunOk(o, []) && Final(o, []) == o;
  }

  lemma Go(o: State, s: State, a: Action)
    requires Leads(o, s) && Enabled(s, a)
    ensures Leads(o, Next(s, a))
  {
    var run :| RunOk(o, run) && Final(o, run) == s;
    RunSnoc(o, run, a);
  }

  lemma {:induction false} LeadsOn(o: State, p: State, run: seq<Action>)
    requires Leads(o, p) && RunOk(p, run)
    ensures Leads(o, Final(p, run))
    decreases |run|
  {
    if run != [] {
      Go(o, p, run[0]);
      LeadsOn(o, Next(p, run[0]), run[1..]);
    }
  }

  lemma LeadsTrans(o: State, p: State, s: State)
    requires Leads(o, p) && Leads(p, s)
    ensures Leads(o, s)
  {
    var run :| RunOk(p, run) && Final(p, run) == s;
    LeadsOn(o, p, run);
  }

  lemma LeadsReachable(s: State, t: State)
    requires Reachable(s) && Leads(s, t) && !t.raced
    ensures Reachable(t)
  {
    var g: Ring.Shape, n: nat, run :| RunOk(Init(g, n), run) && Final(Init(g, n), run) == s;
    assert Leads(Init(g, n), s);
    LeadsTrans(Init(g, n), s, t);
  }

  lemma GoWorker(o: State, s: State, w: Work, step: WorkerStep)
    requires Leads(o, s) && WorkerCan(s, w, step)
    ensures Leads(o, WorkerNext(s, w, step))
  {
    Go(o, s, ByWorker(w, step));
  }

  lemma GoCompleter(o: State, s: State, a: AgentId, step: CompleterStep)
    requires Leads(o, s) && CompleterCan(s, a, step)
    ensures Leads(o, CompleterNext(s, a, step))
  {
    Go(o, s, ByCompleter(a, step));
  }

  lemma GoRemover(o: State, s: State, a: AgentId, step: RemoverStep)
    requires Leads(o, s) && RemoverCan(s, a, step)
    ensures Leads(o, RemoverNext(s, a, step))
  {
    Go(o, s, ByRemover(a, step));
  }

  lemma GoControl(o: State, s: State, step: ControlStep)
    requires Leads(o, s) && ControlCan(s, step)
    ensures Leads(o, ControlNext(s, step))
  {
    Go(o, s, ByControl(step));
  }

  lemma GoOutside(o: State, s: State, step: OutsideStep)
    requires Leads(o, s) && OutsideCan(s, step)
    ensures Leads(o, OutsideNext(s, step))
  {
    Go(o, s, ByOutside(step));
  }

  // ---------------------------------------------------------------- one request through the driver

  lemma Overwritten<K, V>(m: map<K, V>, k: K, a: V, b: V)
    ensures m[k := a][k := b] == m[k := b]
  {
  }

  /** A request is started and its worker passes the status check. */
  lemma BeginOne(o: State, s: State, r: Req, op: Ring.Op, segs: nat) returns (t: State)
    requires Leads(o, s) && s.status == Running && r !in s.busy && !op.Pad?
    ensures Leads(o, t)
    ensures t == s.(pdu := s.pdu[r := Pdu(op, segs, 0, 0)], works := s.works[s.nextWork := Worker(r, Filling)],
            nextWork := s.nextWork + 1,
                    busy := s.busy[r := Preparing(s.nextWork)], starts := Incr(s.starts, r))
  {
    var w := s.nextWork;
    GoOutside(o, s, QueueRq(r, op, segs));
    var s1 := DoQueueRq(s, r, op, segs);
    assert s1.works[w] == Worker(r, Queued);
    t := CheckOne(o, s1, w);
    Overwritten(s.works, w, Worker(r, Queued), Worker(r, Filling));
    Overwritten(s.busy, r, Pending(w), Preparing(w));
  }

  lemma CheckOne(o: State, s: State, w: Work) returns (t: State)
    requires Leads(o, s) && s.status == Running && WorkAt(s, w, Queued)
    ensures Leads(o, t)
    ensures t == s.(works := s.works[w := Worker(s.works[w].req, Filling)],
            busy := s.busy[s.works[w].req := Preparing(w)])
  {
    GoWorker(o, s, w, Check);
    t := DoCheck(s, w);
  }

  const NO_PAGES: Pool.Holder := Pool.Holder(0, [], Pool.Held, 0)

  /** A request without data needs no page: its work is ready at once. */
  lemma Prepare(o: State, s: State, w: Work) returns (t: State)
    requires Leads(o, s) && WorkAt(s, w, Filling) && s.works[w].req !in s.pool.holders
             && s.works[w].req !in s.pool.hands
    requires PduOf(s.pdu, s.works[w].req).segs == 0
    ensures Leads(o, t)
    ensures var r := s.works[w].req;
            t == s.(works := s.works[w := Worker(r, Ready)], pool := s.pool.(holders := s.pool.holders[r := NO_PAGES]),
                busy := s.busy[r := Prepared(w)])
  {
    var r := s.works[w].req;
    GoWorker(o, s, w, Fill(Pool.Begin(r, 0)));
    var s1 := s.(pool := s.pool.(holders := s.pool.holders[r := Pool.Holder(0, [], Pool.Filling, 0)]));
    assert s1.pool == Pool.Next(s.pool, Pool.Begin(r, 0));
    t := Settle(o, s1, w);
    assert t.pool.holders == s.pool.holders[r := NO_PAGES];
  }

  lemma Settle(o: State, s: State, w: Work) returns (t: State)
    requires Leads(o, s) && WorkAt(s, w, Filling) && Pool.Filled(s.pool, s.works[w].req)
             && s.works[w].req !in s.pool.hands
    ensures Leads(o, t)
    ensures var r := s.works[w].req;
            t == s.(works := s.works[w := Worker(r, Ready)], pool := Pool.SetMode(s.pool, r, Pool.Held),
                busy := s.busy[r := Prepared(w)])
  {
    var r := s.works[w].req;
    GoWorker(o, s, w, Fill(Pool.Settle(r)));
    var s1 := s.(pool := Pool.SetMode(s.pool, r, Pool.Held));
    assert s1.pool == Pool.Next(s.pool, Pool.Settle(r)) && Pool.In(s1.pool, r, Pool.Held);
    GoWorker(o, s1, w, FillDone);
    t := SetWork(s1, w, Ready, Prepared(w));
  }

  lemma EnlistOne(o: State, s: State, w: Work) returns (t: State)
    requires Leads(o, s) && WorkAt(s, w, Ready) && s.lock.None?
    ensures Leads(o, t)
    ensures var r := s.works[w].req;
            t == s.(works := s.works[w := Worker(r, Enlisted)], busy := s.busy[r := Listed(w)],
                inflight := s.inflight + [r])
  {
    GoWorker(o, s, w, Enlist);
    t := DoEnlist(s, w);
  }

  /** The tid and entry pointer a publication gives the request. */
  function Numbered(p: Pdu, v: Ring.View): Pdu
    requires v.entries != []
  {
    p.(tid := v.tid, se := v.entries[|v.entries| - 1].pos)
  }

  lemma PublishListed(o: State, s: State, w: Work, cmd: nat) returns (t: State)
    requires Leads(o, s) && WorkAt(s, w, Enlisted) && w !in s.notifying
    requires Ring.CmdOk(s.g, cmd) && Ring.SpaceEnough(s.g, s.ring.head, s.ring.tail, cmd)
    ensures Leads(o, t)
    ensures var r := s.works[w].req;
            var v := Ring.Submit(s.g, s.ring, cmd, PduOf(s.pdu, r).op);
            t == s.(ring := v, pdu := s.pdu[r := Numbered(PduOf(s.pdu, r), v)], works := s.works - {w},
                notifying := s.notifying + {w},
                    busy := s.busy[r := Published], pub := s.pub[v.tid := r])
  {
    GoWorker(o, s, w, Publish(cmd));
    var v := Ring.Submit(s.g, s.ring, cmd, PduOf(s.pdu, s.works[w].req).op);
    t := PublishAt(s, w, v, v.entries[|v.entries| - 1].pos);
  }

  lemma NotifyOne(o: State, s: State, w: Work) returns (t: State)
    requires Leads(o, s) && s.g.Ok() && w in s.notifying
    ensures Leads(o, t) && t == s.(notifying := s.notifying - {w}, events := s.events + 1)
  {
    GoWorker(o, s, w, Notify);
    t := s.(notifying := s.notifying - {w}, events := s.events + 1);
  }
}
