/** Ring entries and published requests correspond one to one: the second part of the queue's invariant. */
module QueueTids {
  import Ring
  import opened Queue

  /** The part of a queue's state that ties tids, entries and requests together. */
  datatype Registry = Registry(ring: Ring.View, pdu: map<Req, Pdu>, pub: map<nat, Req>, busy: map<Req, Loc>)

  function RegistryOf(s: State): Registry { Registry(s.ring, s.pdu, s.pub, s.busy) }

  /** Published, and its entry not yet DONE. */
  predicate Live(loc: Loc) { loc.Published? || loc.Spliced? || loc.Fetched? }

  /**
   Entry `k` is the live entry of a request with data `p`: its tid, its operation, its header where the pointer
   points.
   */
  predicate IsEntry(es: seq<Ring.Entry>, k: nat, p: Pdu) {
    k < |es| && es[k].tid == p.tid && es[k].pos == p.se && es[k].op == p.op && !es[k].done && !es[k].op.Pad?
  }

  ghost predicate TidOk(b: Registry, t: nat)
    requires t in b.pub
  {
    var r := b.pub[t];
    && 0 < t
    && r in b.busy && Live(b.busy[r])
    && PduOf(b.pdu, r).tid == t
    && exists k :: IsEntry(b.ring.entries, k, PduOf(b.pdu, r))
  }

  ghost predicate ReqOk(b: Registry, r: Req)
    requires r in b.busy
  {
    var t := PduOf(b.pdu, r).tid;
    && (Live(b.busy[r]) ==> t in b.pub && b.pub[t] == r)
    && (Unpublished(b.busy[r]) ==> t == 0)
    && !PduOf(b.pdu, r).op.Pad?
  }

  ghost predicate EntryOk(b: Registry, k: nat)
    requires k < |b.ring.entries|
  {
    !b.ring.entries[k].op.Pad? && !b.ring.entries[k].done ==> b.ring.entries[k].tid in b.pub
  }

  ghost predicate Tids(b: Registry) {
    && (forall t :: t in b.pub ==> TidOk(b, t))
    && (forall r :: r in b.busy ==> ReqOk(b, r))
    && (forall k: nat :: k < |b.ring.entries| ==> EntryOk(b, k))
  }

  /** A request is started with a cleared tid. */
  lemma TidsStart(b: Registry, r: Req, op: Ring.Op, segs: nat, w: Work)
    requires Tids(b) && r !in b.busy && !op.Pad?
    ensures Tids(b.(pdu := b.pdu[r := Pdu(op, segs, 0, 0)], busy := b.busy[r := Pending(w)]))
  {
    var c := b.(pdu := b.pdu[r := Pdu(op, segs, 0, 0)], busy := b.busy[r := Pending(w)]);
    forall t | t in c.pub ensures TidOk(c, t) { assert TidOk(b, t); }
    forall q | q in c.busy ensures ReqOk(c, q) { if q != r { assert ReqOk(b, q); } }
    forall k: nat | k < |c.ring.entries| ensures EntryOk(c, k) { assert EntryOk(b, k); }
  }

  /** Requests change hands, or leave before publication or after DONE. */
  lemma TidsMove(b: Registry, busy: map<Req, Loc>)
    requires Tids(b)
    requires forall r :: r in busy ==>
               r in b.busy && (Live(busy[r]) <==> Live(b.busy[r]))
               && (Unpublished(busy[r]) ==> Unpublished(b.busy[r]))
    requires forall r :: r in b.busy && Live(b.busy[r]) ==> r in busy
    ensures Tids(b.(busy := busy))
  {
    var c := b.(busy := busy);
    forall t | t in c.pub ensures TidOk(c, t) { assert TidOk(b, t); }
    forall q | q in c.busy ensures ReqOk(c, q) { assert ReqOk(b, q); }
    forall k: nat | k < |c.ring.entries| ensures EntryOk(c, k) { assert EntryOk(b, k); }
  }

  /** Publication gives the request the next tid and the entry that carries it. */
  lemma TidsPublish(g: Ring.Geometry, b: Registry, r: Req, cmd: nat)
    requires g.Ok() && Tids(b) && Ring.Valid(g, b.ring) && Ring.CmdOk(g, cmd)
    requires Ring.SpaceEnough(g, b.ring.head, b.ring.tail, cmd)
    requires r in b.busy && Unpublished(b.busy[r])
    ensures var v := Ring.Submit(g, b.ring, cmd, PduOf(b.pdu, r).op);
            var p := PduOf(b.pdu, r).(tid := v.tid, se := v.entries[|v.entries| - 1].pos);
            Tids(Registry(v, b.pdu[r := p], b.pub[v.tid := r], b.busy[r := Published]))
  {
    assert ReqOk(b, r);
    Ring.SubmitAppends(g, b.ring, cmd, PduOf(b.pdu, r).op);
    var v := Ring.Submit(g, b.ring, cmd, PduOf(b.pdu, r).op);
    var p := PduOf(b.pdu, r).(tid := v.tid, se := v.entries[|v.entries| - 1].pos);
    var c := Registry(v, b.pdu[r := p], b.pub[v.tid := r], b.busy[r := Published]);
    assert IsEntry(v.entries, |v.entries| - 1, p);
    forall t | t in c.pub ensures TidOk(c, t) {
      if t != v.tid { KeepEntry(b, c, t); }
    }
    forall q | q in c.busy ensures ReqOk(c, q) {
      if q != r {
        assert ReqOk(b, q);
        if Live(b.busy[q]) { TidBelow(g, b, PduOf(b.pdu, q).tid); }
      }
    }
    forall k: nat | k < |v.entries| ensures EntryOk(c, k) {
      if k < |b.ring.entries| { assert EntryOk(b, k); }
    }
  }

  /** Registered tids have been handed out. */
  lemma TidBelow(g: Ring.Geometry, b: Registry, t: nat)
    requires g.Ok() && Tids(b) && Ring.Valid(g, b.ring) && t in b.pub
    ensures t <= b.ring.tid
  {
    assert TidOk(b, t);
    var k :| IsEntry(b.ring.entries, k, PduOf(b.pdu, b.pub[t]));
    Ring.GrowingBounds(0, b.ring.entries, b.ring.tid, k);
  }

  /** Appending entries does not disturb a registered tid. */
  lemma KeepEntry(b: Registry, c: Registry, t: nat)
    requires Tids(b) && t in b.pub && t in c.pub && c.pub[t] == b.pub[t]
    requires b.ring.entries <= c.ring.entries
    requires forall q :: q in b.busy && Live(b.busy[q]) ==>
               q in c.busy && Live(c.busy[q]) && PduOf(c.pdu, q) == PduOf(b.pdu, q)
    ensures TidOk(c, t)
  {
    assert TidOk(b, t);
    var k :| IsEntry(b.ring.entries, k, PduOf(b.pdu, b.pub[t]));
    assert IsEntry(c.ring.entries, k, PduOf(c.pdu, c.pub[t]));
  }

  /** Setting DONE on the entry of tid `t` retires that tid and no other. */
  lemma TidsMark(g: Ring.Geometry, b: Registry, r: Req, a: AgentId)
    requires g.Ok() && Tids(b) && Ring.Valid(g, b.ring) && r in b.busy && Live(b.busy[r])
    ensures var p := PduOf(b.pdu, r);
            Tids(Registry(b.ring.(entries := Ring.MarkDone(b.ring.entries, p.se)), b.pdu, b.pub - {p.tid},
                b.busy[r := Marked(a)]))
  {
    var p := PduOf(b.pdu, r);
    var es := Ring.MarkDone(b.ring.entries, p.se);
    var c := Registry(b.ring.(entries := es), b.pdu, b.pub - {p.tid}, b.busy[r := Marked(a)]);
    assert ReqOk(b, r) && TidOk(b, p.tid);
    var mine :| IsEntry(b.ring.entries, mine, p);
    forall t | t in c.pub ensures TidOk(c, t) {
      assert TidOk(b, t);
      var k :| IsEntry(b.ring.entries, k, PduOf(b.pdu, b.pub[t]));
      Ring.PositionsDistinct(g, b.ring, mine, k);
      assert IsEntry(es, k, PduOf(c.pdu, c.pub[t]));
    }
    forall q | q in c.busy ensures ReqOk(c, q) { if q != r { assert ReqOk(b, q); } }
    forall k: nat | k < |es| ensures EntryOk(c, k) {
      assert EntryOk(b, k);
      if k != mine && !es[k].op.Pad? { SameTidSameEntry(g, b.ring, k, mine); }
    }
  }

  lemma SameTidSameEntry(g: Ring.Geometry, v: Ring.View, i: nat, j: nat)
    requires g.Ok() && Ring.Valid(g, v) && i < |v.entries| && j < |v.entries| && i != j
    requires !v.entries[i].op.Pad? && !v.entries[j].op.Pad?
    ensures v.entries[i].tid != v.entries[j].tid
  {
    Ring.TidsIncrease(0, v.entries, v.tid, if i < j then i else j, if i < j then j else i);
  }

  /** The backend sets DONE on padding; no request notices. */
  lemma TidsPad(g: Ring.Geometry, b: Registry, j: nat)
    requires g.Ok() && Tids(b) && Ring.Valid(g, b.ring) && j < |b.ring.entries| && b.ring.entries[j].op.Pad?
    ensures Tids(b.(ring := b.ring.(entries := Ring.MarkDone(b.ring.entries, b.ring.entries[j].pos))))
  {
    var es := Ring.MarkDone(b.ring.entries, b.ring.entries[j].pos);
    var c := b.(ring := b.ring.(entries := es));
    forall t | t in c.pub ensures TidOk(c, t) {
      assert TidOk(b, t);
      var k :| IsEntry(b.ring.entries, k, PduOf(b.pdu, b.pub[t]));
      Ring.PositionsDistinct(g, b.ring, j, k);
      assert IsEntry(es, k, PduOf(c.pdu, c.pub[t]));
    }
    forall q | q in c.busy ensures ReqOk(c, q) { assert ReqOk(b, q); }
    forall k: nat | k < |es| ensures EntryOk(c, k) { assert EntryOk(b, k); }
  }

  /** Reclaiming DONE entries keeps every registered one. */
  lemma TidsAdvance(b: Registry)
    requires Tids(b)
    ensures Tids(b.(ring := Ring.Advance(b.ring)))
  {
    var c := b.(ring := Ring.Advance(b.ring));
    var n := Ring.DoneCount(b.ring.entries);
    forall t | t in c.pub ensures TidOk(c, t) {
      assert TidOk(b, t);
      var k :| IsEntry(b.ring.entries, k, PduOf(b.pdu, b.pub[t]));
      assert IsEntry(c.ring.entries, k - n, PduOf(c.pdu, c.pub[t]));
    }
    forall q | q in c.busy ensures ReqOk(c, q) { assert ReqOk(b, q); }
    forall k: nat | k < |c.ring.entries| ensures EntryOk(c, k) { assert EntryOk(b, k + n); }
  }
}
