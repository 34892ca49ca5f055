/**
 The submit ring in memory: a byte array shared with the backend, indexed by head and tail.
 Every method is one of the driver's critical sections and is specified by the FIFO of module Ring.
 */
module SubmitRing {
  import opened Ring

  datatype Iov = Iov(base: nat, len: nat)

  /** What a byte of the ring starts: an entry header, an iovec slot, or nothing. */
  datatype Cell = Zero | Header(op: Op, len: nat, tid: nat, done: bool) | Slot(iov: Iov)

  /** sizeof(struct ubbd_se) and sizeof(struct iovec). */
  datatype Layout = Layout(se: nat, iovec: nat) {
    predicate Ok() { 0 < se && 0 < iovec }
  }

  /** ubbd_get_cmd_size. */
  function CmdSize(g: Geometry, l: Layout, n: nat): (r: nat)
    requires g.Ok() && l.Ok()
  {
    (l.se + l.iovec * n + g.align - 1) / g.align * g.align
  }

  function SlotAt(l: Layout, pos: nat, k: nat): nat { pos + l.se + l.iovec * k }

  lemma MulStep(m: nat, a: nat, b: nat)
    requires a < b
    ensures m * a + m <= m * b
  {
    MulBounds(m, b - a);
    assert m * b == m * a + m * (b - a);
  }

  /** Rounding up is aligned and wastes less than one unit. */
  lemma RoundUpExact(x: nat, a: nat)
    requires 0 < a
    ensures var r := (x + a - 1) / a * a; x <= r < x + a && r % a == 0
  {
    var y := x + a - 1;
    var q := y / a;
    assert y == a * q + y % a;
    assert q * a == a * q;
    ModUnique(a, q, 0, a * q);
  }

  /** A command is big enough for its header and every iovec slot, and less than one unit bigger. */
  lemma CmdSizeExact(g: Geometry, l: Layout, n: nat)
    requires g.Ok() && l.Ok()
    ensures var raw := l.se + l.iovec * n;
            && raw <= CmdSize(g, l, n) < raw + g.align
            && CmdSize(g, l, n) % g.align == 0 && 0 < CmdSize(g, l, n)
    ensures forall k :: 0 <= k < n ==> SlotAt(l, 0, k) + l.iovec <= CmdSize(g, l, n)
  {
    RoundUpExact(l.se + l.iovec * n, g.align);
    forall k | 0 <= k < n
      ensures SlotAt(l, 0, k) + l.iovec <= l.se + l.iovec * n
    {
      MulStep(l.iovec, k, n);
    }
  }

  function HeaderOf(e: Entry): Cell { Header(e.op, e.len, e.tid, e.done) }

  /** Each entry's header is where the FIFO says it is. */
  ghost predicate Stored(mem: seq<Cell>, es: seq<Entry>) {
    forall i :: 0 <= i < |es| ==> es[i].pos < |mem| && mem[es[i].pos] == HeaderOf(es[i])
  }

  /** The bytes between tail and head determine the FIFO: whoever walks the headers reads the same entries. */
  lemma {:induction false} FifoIsDetermined(g: Geometry, mem: seq<Cell>, p: nat, a: seq<Entry>, b: seq<Entry>, q: nat)
    requires g.Ok()
    requires Tiles(g, p, a, q) && Total(a) < g.size && Stored(mem, a)
    requires Tiles(g, p, b, q) && Total(b) < g.size && Stored(mem, b)
    ensures a == b
    decreases |a|
  {
    TotalIsDistance(g, p, a, q);
    TotalIsDistance(g, p, b, q);
    if a != [] {
      assert mem[p] == HeaderOf(a[0]) == HeaderOf(b[0]);
      assert a[0] == b[0];
      assert Stored(mem, a[1..]) && Stored(mem, b[1..]);
      FifoIsDetermined(g, mem, After(g, p, a[0].len), a[1..], b[1..], q);
      assert a == [a[0]] + a[1..] && b == [b[0]] + b[1..];
    }
  }

  /** Writing outside every live header keeps the FIFO. */
  lemma StoredFrame(mem: seq<Cell>, mem': seq<Cell>, es: seq<Entry>)
    requires Stored(mem, es) && |mem'| == |mem|
    requires forall i :: 0 <= i < |es| ==> mem'[es[i].pos] == mem[es[i].pos]
    ensures Stored(mem', es)
  {
  }

  lemma StoredSnoc(mem: seq<Cell>, es: seq<Entry>, e: Entry)
    requires Stored(mem, es) && e.pos < |mem| && mem[e.pos] == HeaderOf(e)
    ensures Stored(mem, es + [e])
  {
  }

  lemma StoredMark(mem: seq<Cell>, es: seq<Entry>, pos: nat)
    requires Stored(mem, es) && exists i :: 0 <= i < |es| && es[i].pos == pos
    ensures pos < |mem| && mem[pos].Header?
    ensures Stored(mem[pos := mem[pos].(done := true)], MarkDone(es, pos))
  {
  }

  /** Byte `b` belongs to an entry that has not been reclaimed. */
  ghost predicate Occupied(es: seq<Entry>, b: nat) {
    exists i :: 0 <= i < |es| && es[i].pos <= b < es[i].pos + es[i].len
  }

  /** Writes confined to the padding and the new entry leave every live byte alone. */
  lemma LiveBytesKept(g: Geometry, v: View, cmd: nat, was: seq<Cell>, now: seq<Cell>)
    requires g.Ok() && Ring.Valid(g, v) && CmdOk(g, cmd) && SpaceEnough(g, v.head, v.tail, cmd)
    requires |was| == |now| == g.size
    requires var w := InsertPadding(g, v, cmd);
             forall b :: 0 <= b < g.size && !(w.head <= b < w.head + cmd) && (w.entries == v.entries || b < v.head)
                 ==> now[b] == was[b]
    ensures forall b: nat :: b < g.size && Occupied(v.entries, b) ==> now[b] == was[b]
  {
    forall b: nat | b < g.size && Occupied(v.entries, b)
      ensures now[b] == was[b]
    {
      var k :| 0 <= k < |v.entries| && v.entries[k].pos <= b < v.entries[k].pos + v.entries[k].len;
      SubmitWritesFreeBytes(g, v, cmd, k, b);
    }
  }

  /** When padding was inserted, the entry at the start of the ring ends before the padding. */
  lemma PaddingBeforeEntry(g: Geometry, v: View, cmd: nat)
    requires g.Ok() && Ring.Valid(g, v) && CmdOk(g, cmd) && SpaceEnough(g, v.head, v.tail, cmd)
    ensures var w := InsertPadding(g, v, cmd);
            w.entries != v.entries ==> w.head + cmd <= v.head
  {
    PaddingTiles(g, v, cmd);
    InsertPaddingAppends(g, v, cmd);
    var w := InsertPadding(g, v, cmd);
    if w.entries != v.entries {
      FreeSpaceIsDisjoint(g, w.tail, w.entries, w.head, cmd, |w.entries| - 1);
    }
  }

  /** After the writes of a submission the memory holds the submitted FIFO. */
  lemma SubmitStored(g: Geometry, v: View, cmd: nat, op: Op, was: seq<Cell>, now: seq<Cell>)
    requires g.Ok() && Ring.Valid(g, v) && CmdOk(g, cmd) && SpaceEnough(g, v.head, v.tail, cmd)
    requires |was| == |now| == g.size && Stored(was, v.entries)
    requires forall b: nat :: b < g.size && Occupied(v.entries, b) ==> now[b] == was[b]
    requires var w := InsertPadding(g, v, cmd);
             && w.head < g.size && now[w.head] == Header(op, cmd, v.tid + 1, false)
             && (w.entries != v.entries ==> v.head < g.size && now[v.head] == HeaderOf(w.entries[|w.entries| - 1]))
    ensures Stored(now, Submit(g, v, cmd, op).entries)
  {
    var w := InsertPadding(g, v, cmd);
    forall i | 0 <= i < |v.entries|
      ensures now[v.entries[i].pos] == was[v.entries[i].pos]
    {
      EntryInside(g, v, i);
      assert Occupied(v.entries, v.entries[i].pos);
    }
    StoredFrame(was, now, v.entries);
    if w.entries != v.entries {
      StoredSnoc(now, v.entries, w.entries[|w.entries| - 1]);
    }
    StoredSnoc(now, w.entries, Entry(w.head, cmd, op, v.tid + 1, false));
  }

  lemma SubmitFits(g: Geometry, v: View, cmd: nat)
    requires g.Ok() && Ring.Valid(g, v) && CmdOk(g, cmd) && SpaceEnough(g, v.head, v.tail, cmd)
    ensures v.head < g.size && InsertPadding(g, v, cmd).head + cmd <= g.size
    ensures InsertPadding(g, v, cmd).entries != v.entries ==> InsertPadding(g, v, cmd).head + cmd <= v.head
  {
    PaddingTiles(g, v, cmd);
    PaddingBeforeEntry(g, v, cmd);
  }

  /** The writes of WriteCommand turn a valid ring into the valid ring that holds one command more. */
  lemma SubmitCommits(g: Geometry, v: View, cmd: nat, op: Op, was: seq<Cell>, now: seq<Cell>)
    requires g.Ok() && Ring.Valid(g, v) && CmdOk(g, cmd) && SpaceEnough(g, v.head, v.tail, cmd) && !op.Pad?
    requires |was| == |now| == g.size && Stored(was, v.entries)
    requires var w := InsertPadding(g, v, cmd);
             && w.head < g.size && now[w.head] == Header(op, cmd, v.tid + 1, false)
             && (w.entries != v.entries ==> v.head < g.size && now[v.head] == HeaderOf(w.entries[|w.entries| - 1]))
             && forall b ::
                   0 <= b < g.size && !(w.head <= b < w.head + cmd) && (w.entries == v.entries || b < v.head)
                   ==> now[b] == was[b]
    ensures Ring.Valid(g, Submit(g, v, cmd, op))
    ensures Stored(now, Submit(g, v, cmd, op).entries)
    ensures forall b: nat :: b < g.size && Occupied(v.entries, b) ==> now[b] == was[b]
  {
    LiveBytesKept(g, v, cmd, was, now);
    SubmitStored(g, v, cmd, op, was, now);
    SubmitAppends(g, v, cmd, op);
  }

  /** One round of advance_cmd_ring: the oldest entry is DONE, so dropping it advances by one. */
  lemma PopDone(g: Geometry, v: View)
    requires g.Ok() && Ring.Valid(g, v) && v.entries != [] && v.entries[0].done
    ensures var w := View(v.head, Bump(g, v.tail, v.entries[0].len), v.entries[1..], v.tid);
            Ring.Valid(g, w) && Advance(w) == Advance(v) && Total(w.entries) < Total(v.entries)
    ensures v.entries[0].pos == v.tail
  {
    var es := v.entries;
    BumpIsAfter(g, v.tail, es[0].len);
    GrowingDrop(0, es, v.tid, 1);
    assert DoneCount(es) == 1 + DoneCount(es[1..]);
    assert es[1..][DoneCount(es[1..])..] == es[DoneCount(es)..];
  }

  class CommandRing {
    const g: Geometry
    const layout: Layout
    const mem: array<Cell>
    var head: nat
    var tail: nat
    var reqTid: nat
    ghost var entries: seq<Entry>

    ghost function Contents(): View
      reads this
    {
      View(head, tail, entries, reqTid)
    }

    ghost predicate Valid()
      reads this, mem
    {
      && g.Ok() && layout.Ok()
      && mem.Length == g.size
      && Ring.Valid(g, Contents())
      && Stored(mem[..], entries)
    }

    constructor (g: Geometry, layout: Layout)
      requires g.Ok() && layout.Ok()
      ensures Valid() && fresh(mem) && this.g == g && this.layout == layout
      ensures Contents() == Ring.Init()
    {
      this.g, this.layout := g, layout;
      mem := new Cell[g.size](_ => Zero);
      head, tail, reqTid, entries := 0, 0, 0, [];
      ModUnique(g.align, 0, 0, 0);
    }

    /** memset of `n` bytes. */
    method Clear(from: nat, n: nat)
      requires from + n <= mem.Length
      modifies mem
      ensures forall b :: 0 <= b < mem.Length ==> mem[b] == if from <= b < from + n then Zero else old(mem[b])
    {
      for i := 0 to n
        invariant forall b :: 0 <= b < mem.Length ==> mem[b] == if from <= b < from + i then Zero else old(mem[b])
      {
        mem[from + i] := Zero;
      }
    }

    /** memset the entry and write its header; no other byte changes. */
    method WriteHeader(pos: nat, cmd: nat, op: Op, tid: nat)
      requires 0 < cmd && pos + cmd <= mem.Length
      modifies mem
      ensures mem[pos] == Header(op, cmd, tid, false)
      ensures forall b :: 0 <= b < mem.Length && !(pos <= b < pos + cmd) ==> mem[b] == old(mem[b])
    {
      Clear(pos, cmd);
      mem[pos] := Header(op, cmd, tid, false);
    }

    /** insert_padding. */
    method InsertPad(cmd: nat)
      requires g.Ok() && mem.Length == g.size && head < g.size
      modifies this`head, this`entries, mem
      ensures Contents() == InsertPadding(g, old(Contents()), cmd)
      ensures entries != old(entries) ==> mem[old(head)] == HeaderOf(entries[|entries| - 1])
      ensures forall b :: 0 <= b < mem.Length && (entries == old(entries) || b < old(head)) ==> mem[b] == old(mem[b])
    {
      if U32(g.size - head) >= cmd { return; }
      var padLen := U32(g.size - head);
      WriteHeader(head, padLen, Pad, 0);
      entries := entries + [Entry(head, padLen, Pad, 0, false)];
      head := Bump(g, head, padLen);
    }

    /** ubbd_set_se_iov: fill the iovec slots of the entry at `pos`. */
    method SetSlots(pos: nat, iovs: seq<Iov>)
      requires layout.Ok() && g.Ok() && pos + CmdSize(g, layout, |iovs|) <= mem.Length
      modifies mem
      ensures forall k :: 0 <= k < |iovs| ==>
                SlotAt(layout, pos, k) < mem.Length && mem[SlotAt(layout, pos, k)] == Slot(iovs[k])
      ensures forall b ::
                0 <= b < mem.Length && (b <= pos || pos + CmdSize(g, layout, |iovs|) <= b) ==> mem[b] == old(mem[b])
    {
      CmdSizeExact(g, layout, |iovs|);
      ghost var end := pos + CmdSize(g, layout, |iovs|);
      assert forall k :: 0 <= k < |iovs| ==> SlotAt(layout, pos, k) == pos + SlotAt(layout, 0, k);
      for i := 0 to |iovs|
        invariant forall k :: 0 <= k < i ==> mem[SlotAt(layout, pos, k)] == Slot(iovs[k])
        invariant forall b :: 0 <= b < mem.Length && (b <= pos || end <= b) ==> mem[b] == old(mem[b])
      {
        forall k | 0 <= k < i ensures SlotAt(layout, pos, k) != SlotAt(layout, pos, i) {
          MulStep(layout.iovec, k, i);
        }
        mem[SlotAt(layout, pos, i)] := Slot(iovs[i]);
      }
    }

    /**
     The cmdr_lock section of ubbd_queue_workfn once there is space: pad, take the next tid, write the entry
     and its iovecs, move the head.
     */
    method WriteCommand(cmd: nat, op: Op, iovs: seq<Iov>) returns (pos: nat)
      requires g.Ok() && layout.Ok() && mem.Length == g.size && head < g.size
      requires 0 < cmd == CmdSize(g, layout, |iovs|) && InsertPadding(g, Contents(), cmd).head + cmd <= g.size
      modifies this`head, this`entries, this`reqTid, mem
      ensures Contents() == Submit(g, old(Contents()), cmd, op)
      ensures var w := InsertPadding(g, old(Contents()), cmd);
              && pos == w.head && mem[pos] == Header(op, cmd, reqTid, false)
              && (w.entries != old(entries) ==>
                    w.head <= old(head)
                    && (pos + cmd <= old(head) ==> mem[old(head)] == HeaderOf(w.entries[|w.entries| - 1])))
              && forall b ::
                   0 <= b < g.size && !(w.head <= b < w.head + cmd) && (w.entries == old(entries) || b < old(head)) ==>
                     mem[b] == old(mem[b])
      ensures forall k :: 0 <= k < |iovs| ==>
                SlotAt(layout, pos, k) < mem.Length && mem[SlotAt(layout, pos, k)] == Slot(iovs[k])
    {
      InsertPaddingAppends(g, Contents(), cmd);
      InsertPad(cmd);
      reqTid := reqTid + 1;
      pos := head;
      WriteHeader(pos, cmd, op, reqTid);
      SetSlots(pos, iovs);
      entries := entries + [Entry(pos, cmd, op, reqTid, false)];
      head := Bump(g, pos, cmd);
    }

    method CommitCommand(cmd: nat, op: Op, iovs: seq<Iov>) returns (pos: nat)
      requires Valid() && !op.Pad? && cmd == CmdSize(g, layout, |iovs|) && CmdOk(g, cmd)
               && SpaceEnough(g, head, tail, cmd)
      modifies this`head, this`entries, this`reqTid, mem
      ensures Valid()
      ensures Contents() == Submit(g, old(Contents()), cmd, op) && pos == entries[|entries| - 1].pos
      ensures forall k :: 0 <= k < |iovs| ==>
                SlotAt(layout, pos, k) < mem.Length && mem[SlotAt(layout, pos, k)] == Slot(iovs[k])
      ensures forall b: nat :: b < mem.Length && Occupied(old(entries), b) ==> mem[b] == old(mem[b])
    {
      ghost var v, was := Contents(), mem[..];
      SubmitFits(g, v, cmd);
      pos := WriteCommand(cmd, op, iovs);
      SubmitCommits(g, v, cmd, op, was, mem[..]);
    }

    /**
     The cmdr_lock section of ubbd_queue_workfn: refuse when space is short, otherwise append the
     command to the FIFO without touching a byte of an entry that has not been reclaimed.
     */
    method SubmitCommand(op: Op, iovs: seq<Iov>) returns (ok: bool, pos: nat)
      requires Valid() && !op.Pad? && CmdOk(g, CmdSize(g, layout, |iovs|))
      modifies this`head, this`entries, this`reqTid, mem
      ensures Valid()
      ensures ok <==> SpaceEnough(g, old(head), old(tail), CmdSize(g, layout, |iovs|))
      ensures !ok ==> Contents() == old(Contents()) && mem[..] == old(mem[..])
      ensures ok ==> Contents() == Submit(g, old(Contents()), CmdSize(g, layout, |iovs|), op)
                     && pos == entries[|entries| - 1].pos
                     && (forall k :: 0 <= k < |iovs| ==>
                           SlotAt(layout, pos, k) < mem.Length && mem[SlotAt(layout, pos, k)] == Slot(iovs[k]))
      ensures forall b: nat :: b < mem.Length && Occupied(old(entries), b) ==> mem[b] == old(mem[b])
    {
      var cmd := CmdSize(g, layout, |iovs|);
      pos := 0;
      ok := SpaceEnough(g, head, tail, cmd);
      if ok { pos := CommitCommand(cmd, op, iovs); }
    }

    /** ubbd_se_hdr_flags_set(se, UBBD_SE_HDR_DONE) on the entry at `pos`. */
    method SetDone(pos: nat)
      requires Valid()
      requires exists i :: 0 <= i < |entries| && entries[i].pos == pos
      modifies this`entries, mem
      ensures Valid()
      ensures Contents() == old(Contents()).(entries := MarkDone(old(entries), pos))
    {
      MarkDoneKeepsValid(g, Contents(), pos);
      StoredMark(mem[..], entries, pos);
      ghost var was := mem[..];
      mem[pos] := mem[pos].(done := true);
      assert mem[..] == was[pos := was[pos].(done := true)];
      entries := MarkDone(entries, pos);
    }

    /** advance_cmd_ring: the loop ends because every round frees space, and the tail never passes the head. */
    method AdvanceTail()
      requires Valid()
      modifies this`tail, this`entries
      ensures Valid()
      ensures Contents() == Advance(old(Contents()))
    {
      ghost var v := Contents();
      SpaceUsedIsTotal(g, v);
      while tail != head && mem[tail].done
        invariant Valid() && head < g.size && tail < g.size
        invariant entries == [] <==> tail == head
        invariant Advance(Contents()) == Advance(v)
        decreases Total(entries)
      {
        PopDone(g, Contents());
        tail := Bump(g, tail, mem[tail].len);
        entries := entries[1..];
        SpaceUsedIsTotal(g, Contents());
      }
      if entries != [] { assert !entries[0].done; }
    }
  }
}
