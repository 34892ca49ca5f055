/**
 The submit ring as a FIFO of variable-length entries laid out on a circle of `size` bytes.

 `Space*` and `Bump` follow the driver's own `u32` arithmetic; `View` is the abstract
 value a queue's ring denotes, and the lemmas show that the byte bookkeeping and the FIFO agree.
 */
module Ring {

  const U32_LIMIT: nat := 0x1_0000_0000

  function U32(x: int): (r: nat)
    ensures r < U32_LIMIT
    ensures 0 <= x < U32_LIMIT ==> r == x
  {
    x % U32_LIMIT
  }

  datatype Op = Pad | Flush | Discard | WriteZeros | Write | Read

  /** A ring entry: where its header sits, how many bytes it spans, and what the header says. */
  datatype Entry = Entry(pos: nat, len: nat, op: Op, tid: nat, done: bool)

  /** Head, tail, the live entries from tail to head, and the last tid handed out. */
  datatype View = View(head: nat, tail: nat, entries: seq<Entry>, tid: nat)

  /** `cmdr_size`, `CMDR_RESERVED` and `UBBD_OP_ALIGN_SIZE`. */
  datatype Geometry = Geometry(size: nat, reserved: nat, align: nat) {
    predicate Ok() {
      && 0 < align
      && size % align == 0
      && 0 < reserved < size
      && 2 * size <= U32_LIMIT
      && size + align < U32_LIMIT
    }
  }

  type Shape = g: Geometry | g.Ok() witness Geometry(2, 1, 1)

  /** A command size a request can ask for: aligned, and small enough that no `u32` sum wraps. */
  predicate CmdOk(g: Geometry, cmd: nat)
    requires g.Ok()
  {
    0 < cmd && cmd % g.align == 0 && cmd + g.size < U32_LIMIT
  }

  /** UPDATE_CMDR_HEAD and UPDATE_CMDR_TAIL. */
  function Bump(g: Geometry, x: nat, used: nat): nat
    requires g.Ok()
  {
    U32(x % g.size + used) % g.size
  }

  /** One step around the circle for a block that does not cross the end. */
  function After(g: Geometry, p: nat, len: nat): nat {
    if p + len == g.size then 0 else p + len
  }

  function Total(es: seq<Entry>): nat {
    if es == [] then 0 else es[0].len + Total(es[1..])
  }

  // ---------------------------------------------------------------- the code's space check

  function SpaceUsed(g: Geometry, head: nat, tail: nat): nat {
    if head > tail then U32(head - tail)
    else if head < tail then U32(head + U32(g.size - tail))
    else 0
  }

  function SpaceNeeded(g: Geometry, head: nat, cmd: nat): nat {
    if U32(g.size - head) > cmd then cmd else U32(U32(cmd + g.size) - head)
  }

  /** submit_ring_space_enough. */
  predicate SpaceEnough(g: Geometry, head: nat, tail: nat, cmd: nat) {
    U32(U32(g.size - g.reserved) - SpaceUsed(g, head, tail)) >= SpaceNeeded(g, head, cmd)
  }

  // ---------------------------------------------------------------- the FIFO on the circle

  /** The blocks of `es`, laid end to end from `p`, reach `q`, and none crosses the end of the ring. */
  ghost predicate Tiles(g: Geometry, p: nat, es: seq<Entry>, q: nat)
    requires g.Ok()
    decreases |es|
  {
    && p < g.size
    && p % g.align == 0
    && if es == [] then p == q else
       && es[0].pos == p
       && 0 < es[0].len
       && es[0].len % g.align == 0
       && p + es[0].len <= g.size
       && Tiles(g, After(g, p, es[0].len), es[1..], q)
  }

  /** Real entries carry tids above `lo`, growing from tail to head, at most `hi`; padding carries none. */
  ghost predicate Growing(lo: nat, es: seq<Entry>, hi: nat)
    decreases |es|
  {
    && lo <= hi
    && (es != [] ==>
          if es[0].op.Pad? then es[0].tid == 0 && Growing(lo, es[1..], hi)
          else lo < es[0].tid && Growing(es[0].tid, es[1..], hi))
  }

  /** What every reachable submit ring satisfies. */
  ghost predicate Valid(g: Geometry, v: View)
    requires g.Ok()
  {
    && Tiles(g, v.tail, v.entries, v.head)
    && Total(v.entries) <= g.size - g.reserved
    && Growing(0, v.entries, v.tid)
    && (v.entries != [] ==> !v.entries[|v.entries| - 1].op.Pad?)
  }

  // ---------------------------------------------------------------- the ring's operations

  function Init(): View { View(0, 0, [], 0) }

  /** insert_padding: close the end of the ring when the command does not fit before it. */
  function InsertPadding(g: Geometry, v: View, cmd: nat): View
    requires g.Ok()
  {
    if U32(g.size - v.head) >= cmd then v
    else
      var padLen := U32(g.size - v.head);
      View(Bump(g, v.head, padLen), v.tail, v.entries + [Entry(v.head, padLen, Pad, 0, false)], v.tid)
  }

  /** The submitting critical section once space was found. */
  function Submit(g: Geometry, v: View, cmd: nat, op: Op): View
    requires g.Ok()
  {
    var w := InsertPadding(g, v, cmd);
    View(Bump(g, w.head, cmd), w.tail, w.entries + [Entry(w.head, cmd, op, w.tid + 1, false)], w.tid + 1)
  }

  /** Set DONE on the header at byte `pos`. */
  function MarkDone(es: seq<Entry>, pos: nat): (r: seq<Entry>)
    ensures |r| == |es|
    ensures forall i :: 0 <= i < |es| ==> r[i] == if es[i].pos == pos then es[i].(done := true) else es[i]
  {
    if es == [] then [] else
    [if es[0].pos == pos then es[0].(done := true) else es[0]] + MarkDone(es[1..], pos)
  }

  /** How many entries at the front are DONE. */
  function DoneCount(es: seq<Entry>): (k: nat)
    ensures k <= |es|
    ensures forall i :: 0 <= i < k ==> es[i].done
    ensures k < |es| ==> !es[k].done
  {
    if es == [] || !es[0].done then 0 else 1 + DoneCount(es[1..])
  }

  /** advance_cmd_ring. */
  function Advance(v: View): View {
    var k := DoneCount(v.entries);
    View(v.head, if k == |v.entries| then v.head else v.entries[k].pos, v.entries[k..], v.tid)
  }

  // ---------------------------------------------------------------- arithmetic of the circle

  lemma MulBounds(m: nat, d: int)
    ensures d >= 1 ==> m * d >= m
    ensures d <= -1 ==> m * d <= 0 - m
  {
  }

  /** Quotient and remainder are determined by `a == m * q + r`. */
  lemma ModUnique(m: nat, q: int, r: nat, a: int)
    requires r < m && a == m * q + r
    ensures a % m == r
  {
    var d := q - a / m;
    assert m * d == a % m - r;
    MulBounds(m, d);
  }

  lemma AlignedSum(m: nat, a: nat, b: nat)
    requires m > 0 && a % m == 0 && b % m == 0
    ensures (a + b) % m == 0
    ensures (a - b) % m == 0
  {
    var x, y := a / m, b / m;
    assert a + b == m * (x + y) && a - b == m * (x - y);
    ModUnique(m, x + y, 0, a + b);
    ModUnique(m, x - y, 0, a - b);
  }

  /** The head and tail macros take exactly one step around the circle. */
  lemma BumpIsAfter(g: Geometry, p: nat, len: nat)
    requires g.Ok() && p < g.size && p + len <= g.size
    ensures Bump(g, p, len) == After(g, p, len)
  {
    ModUnique(g.size, 0, p, p);
    if p + len == g.size {
      ModUnique(g.size, 1, 0, p + len);
    } else {
      ModUnique(g.size, 0, p + len, p + len);
    }
  }

  lemma AfterAligned(g: Geometry, p: nat, len: nat)
    requires g.Ok() && p < g.size && p % g.align == 0 && len % g.align == 0 && p + len <= g.size
    ensures After(g, p, len) < g.size && After(g, p, len) % g.align == 0
  {
    AlignedSum(g.align, p, len);
    ModUnique(g.align, 0, 0, 0);
  }

  lemma TotalConcat(a: seq<Entry>, b: seq<Entry>)
    ensures Total(a + b) == Total(a) + Total(b)
  {
    if a == [] {
      assert a + b == b;
    } else {
      assert (a + b)[1..] == a[1..] + b;
      TotalConcat(a[1..], b);
    }
  }

  lemma {:induction false} TilesConcat(g: Geometry, p: nat, a: seq<Entry>, m: nat, b: seq<Entry>, q: nat)
    requires g.Ok() && Tiles(g, p, a, m) && Tiles(g, m, b, q)
    ensures Tiles(g, p, a + b, q)
    decreases |a|
  {
    if a == [] {
      assert a + b == b;
    } else {
      assert (a + b)[1..] == a[1..] + b;
      TilesConcat(g, After(g, p, a[0].len), a[1..], m, b, q);
    }
  }

  lemma {:induction false} TilesSplit(g: Geometry, p: nat, es: seq<Entry>, q: nat, k: nat)
    requires g.Ok() && Tiles(g, p, es, q) && k <= |es|
    ensures k < |es| ==> Tiles(g, p, es[..k], es[k].pos) && Tiles(g, es[k].pos, es[k..], q)
    ensures k == |es| ==> es[..k] == es
    ensures q < g.size && q % g.align == 0
    decreases |es|
  {
    if es == [] {
    } else if k == 0 {
      assert es[..0] == [] && es[0..] == es;
      TilesSplit(g, After(g, p, es[0].len), es[1..], q, 0);
    } else {
      TilesSplit(g, After(g, p, es[0].len), es[1..], q, k - 1);
      assert es[1..][..k-1] == es[..k][1..];
      assert es[1..][k-1..] == es[k..];
    }
  }

  /** The space the code computes from head and tail is the space the entries occupy. */
  lemma {:induction false} TotalIsDistance(g: Geometry, p: nat, es: seq<Entry>, q: nat)
    requires g.Ok() && Tiles(g, p, es, q) && Total(es) < g.size
    ensures Total(es) == if q >= p then q - p else q + g.size - p
    ensures q < g.size
    decreases |es|
  {
    if es != [] {
      TotalIsDistance(g, After(g, p, es[0].len), es[1..], q);
    }
  }

  lemma SpaceUsedIsTotal(g: Geometry, v: View)
    requires g.Ok() && Valid(g, v)
    ensures SpaceUsed(g, v.head, v.tail) == Total(v.entries)
    ensures v.head < g.size && v.tail < g.size
    ensures v.head == v.tail <==> v.entries == []
  {
    TotalIsDistance(g, v.tail, v.entries, v.head);
  }

  /** The free stretch at the head does not touch any entry that is still on the ring. */
  lemma {:induction false} FreeSpaceIsDisjoint(g: Geometry, p: nat, es: seq<Entry>, q: nat, n: nat, k: nat)
    requires g.Ok() && Tiles(g, p, es, q) && k < |es|
    requires 0 < n && q + n <= g.size && Total(es) + n <= g.size
    ensures es[k].pos + es[k].len <= q || q + n <= es[k].pos
    decreases |es|
  {
    TotalIsDistance(g, p, es, q);
    if k > 0 {
      FreeSpaceIsDisjoint(g, After(g, p, es[0].len), es[1..], q, n, k - 1);
    }
  }

  /** Live entries occupy pairwise disjoint byte ranges, each inside the ring. */
  lemma EntriesDisjoint(g: Geometry, v: View, i: nat, j: nat)
    requires g.Ok() && Valid(g, v) && i < j < |v.entries|
    ensures v.entries[j].pos + v.entries[j].len <= g.size
    ensures v.entries[i].pos + v.entries[i].len <= v.entries[j].pos
            || v.entries[j].pos + v.entries[j].len <= v.entries[i].pos
  {
    var es := v.entries;
    TilesSplit(g, v.tail, es, v.head, j);
    TotalConcat(es[..j], es[j..]);
    assert es[..j] + es[j..] == es;
    FreeSpaceIsDisjoint(g, v.tail, es[..j], es[j].pos, es[j].len, i);
  }

  lemma EntryInside(g: Geometry, v: View, i: nat)
    requires g.Ok() && Valid(g, v) && i < |v.entries|
    ensures v.entries[i].pos + v.entries[i].len <= g.size && 0 < v.entries[i].len
  {
    TilesSplit(g, v.tail, v.entries, v.head, i);
  }

  lemma PositionsDistinct(g: Geometry, v: View, i: nat, j: nat)
    requires g.Ok() && Valid(g, v) && i < |v.entries| && j < |v.entries| && i != j
    ensures v.entries[i].pos != v.entries[j].pos
  {
    EntryInside(g, v, i);
    EntryInside(g, v, j);
    EntriesDisjoint(g, v, if i < j then i else j, if i < j then j else i);
  }

  // ---------------------------------------------------------------- tids

  lemma {:induction false} GrowingSnoc(lo: nat, es: seq<Entry>, hi: nat, e: Entry, hi': nat)
    requires Growing(lo, es, hi) && hi <= hi'
    requires if e.op.Pad? then e.tid == 0 else hi < e.tid <= hi'
    ensures Growing(lo, es + [e], hi')
    decreases |es|
  {
    if es == [] {
      assert (es + [e])[1..] == [];
    } else {
      assert (es + [e])[1..] == es[1..] + [e];
      GrowingSnoc(if es[0].op.Pad? then lo else es[0].tid, es[1..], hi, e, hi');
    }
  }

  lemma {:induction false} GrowingDrop(lo: nat, es: seq<Entry>, hi: nat, k: nat)
    requires Growing(lo, es, hi) && k <= |es|
    ensures Growing(lo, es[k..], hi)
    decreases |es|
  {
    if k > 0 {
      GrowingDrop(if es[0].op.Pad? then lo else es[0].tid, es[1..], hi, k - 1);
      assert es[1..][k-1..] == es[k..];
      GrowingLower(lo, if es[0].op.Pad? then lo else es[0].tid, es[k..], hi);
    } else {
      assert es[0..] == es;
    }
  }

  lemma {:induction false} GrowingLower(lo: nat, lo': nat, es: seq<Entry>, hi: nat)
    requires Growing(lo', es, hi) && lo <= lo'
    ensures Growing(lo, es, hi)
    decreases |es|
  {
    if es != [] && es[0].op.Pad? { GrowingLower(lo, lo', es[1..], hi); }
  }

  lemma {:induction false} GrowingMark(lo: nat, es: seq<Entry>, hi: nat, pos: nat)
    requires Growing(lo, es, hi)
    ensures Growing(lo, MarkDone(es, pos), hi)
    decreases |es|
  {
    if es != [] {
      assert MarkDone(es, pos)[1..] == MarkDone(es[1..], pos);
      GrowingMark(if es[0].op.Pad? then lo else es[0].tid, es[1..], hi, pos);
    }
  }

  lemma {:induction false} GrowingBounds(lo: nat, es: seq<Entry>, hi: nat, i: nat)
    requires Growing(lo, es, hi) && i < |es|
    ensures if es[i].op.Pad? then es[i].tid == 0 else lo < es[i].tid <= hi
    decreases |es|
  {
    if i > 0 { GrowingBounds(if es[0].op.Pad? then lo else es[0].tid, es[1..], hi, i - 1); }
  }

  /** Tids strictly increase from tail to head, so a tid names at most one entry. */
  lemma TidsIncrease(lo: nat, es: seq<Entry>, hi: nat, i: nat, j: nat)
    requires Growing(lo, es, hi) && i < j < |es| && !es[i].op.Pad? && !es[j].op.Pad?
    ensures lo < es[i].tid < es[j].tid <= hi
    decreases |es|
  {
    if i == 0 {
      GrowingBounds(es[0].tid, es[1..], hi, j - 1);
    } else {
      TidsIncrease(if es[0].op.Pad? then lo else es[0].tid, es[1..], hi, i - 1, j - 1);
    }
  }

  // ---------------------------------------------------------------- submission

  /** The `u32` space check is the plain one: nothing wraps, and padding is charged for. */
  lemma SpaceEnoughExact(g: Geometry, v: View, cmd: nat)
    requires g.Ok() && Valid(g, v) && CmdOk(g, cmd)
    ensures SpaceEnough(g, v.head, v.tail, cmd) <==>
              Total(v.entries) + cmd + (if g.size - v.head > cmd then 0 else g.size - v.head) <= g.size - g.reserved
  {
    SpaceUsedIsTotal(g, v);
  }

  /** The padding a submission needs at this head, as a FIFO prefix. */
  function PadFor(g: Geometry, v: View, cmd: nat): seq<Entry>
    requires v.head <= g.size
  {
    if g.size - v.head >= cmd then [] else [Entry(v.head, g.size - v.head, Pad, 0, false)]
  }

  /** One block that does not cross the end tiles the stretch it covers. */
  lemma OneBlockTiles(g: Geometry, e: Entry)
    requires g.Ok() && e.pos < g.size && e.pos % g.align == 0
    requires 0 < e.len && e.len % g.align == 0 && e.pos + e.len <= g.size
    ensures Tiles(g, e.pos, [e], After(g, e.pos, e.len)) && Total([e]) == e.len
  {
    AfterAligned(g, e.pos, e.len);
    assert [e][1..] == [];
  }

  /** Appending one block to a tiling. */
  lemma TilesSnoc(g: Geometry, p: nat, es: seq<Entry>, q: nat, e: Entry)
    requires g.Ok() && Tiles(g, p, es, q) && e.pos == q
    requires 0 < e.len && e.len % g.align == 0 && q + e.len <= g.size
    ensures Tiles(g, p, es + [e], After(g, q, e.len)) && Total(es + [e]) == Total(es) + e.len
  {
    TilesSplit(g, p, es, q, 0);
    OneBlockTiles(g, e);
    TilesConcat(g, p, es, q, [e], After(g, q, e.len));
    TotalConcat(es, [e]);
  }

  /** Padding, when there is any, is at least one alignment unit, so its header fits. */
  lemma PaddingFitsHeader(g: Geometry, h: nat)
    requires g.Ok() && h < g.size && h % g.align == 0
    ensures (g.size - h) % g.align == 0 && g.size - h >= g.align
  {
    AlignedSum(g.align, g.size, h);
    if g.size - h < g.align { ModUnique(g.align, 0, g.size - h, g.size - h); }
  }

  lemma InsertPaddingAppends(g: Geometry, v: View, cmd: nat)
    requires g.Ok() && v.head < g.size
    ensures var w := InsertPadding(g, v, cmd);
            && w.tail == v.tail && w.entries == v.entries + PadFor(g, v, cmd)
            && w.head == if g.size - v.head >= cmd then v.head else 0
  {
    BumpIsAfter(g, v.head, g.size - v.head);
  }

  lemma PaddingTiles(g: Geometry, v: View, cmd: nat)
    requires g.Ok() && Valid(g, v) && CmdOk(g, cmd) && SpaceEnough(g, v.head, v.tail, cmd)
    ensures var w := InsertPadding(g, v, cmd);
            && v.head < g.size
            && w.tail == v.tail && w.entries == v.entries + PadFor(g, v, cmd)
            && Tiles(g, w.tail, w.entries, w.head)
            && w.head + cmd <= g.size
            && Total(w.entries) + cmd <= g.size - g.reserved
  {
    SpaceUsedIsTotal(g, v);
    SpaceEnoughExact(g, v, cmd);
    TilesSplit(g, v.tail, v.entries, v.head, 0);
    InsertPaddingAppends(g, v, cmd);
    if g.size - v.head < cmd {
      PaddingFitsHeader(g, v.head);
      TilesSnoc(g, v.tail, v.entries, v.head, PadFor(g, v, cmd)[0]);
    } else {
      assert v.entries + PadFor(g, v, cmd) == v.entries;
    }
  }

  lemma PaddingGrows(g: Geometry, v: View, cmd: nat)
    requires g.Ok() && v.head < g.size && Growing(0, v.entries, v.tid)
    ensures Growing(0, v.entries + PadFor(g, v, cmd), v.tid)
  {
    if PadFor(g, v, cmd) == [] {
      assert v.entries + PadFor(g, v, cmd) == v.entries;
    } else {
      GrowingSnoc(0, v.entries, v.tid, PadFor(g, v, cmd)[0], v.tid);
    }
  }

  /** Placing an entry with the next tid at the head of a ring that has room for it. */
  lemma PlaceEntry(g: Geometry, w: View, cmd: nat, op: Op)
    requires g.Ok() && Tiles(g, w.tail, w.entries, w.head) && Growing(0, w.entries, w.tid)
    requires 0 < cmd && cmd % g.align == 0 && !op.Pad?
    requires w.head + cmd <= g.size && Total(w.entries) + cmd <= g.size - g.reserved
    ensures Valid(g, View(Bump(g, w.head, cmd), w.tail, w.entries + [Entry(w.head, cmd, op, w.tid + 1, false)],
            w.tid + 1))
  {
    var e := Entry(w.head, cmd, op, w.tid + 1, false);
    TilesSplit(g, w.tail, w.entries, w.head, 0);
    BumpIsAfter(g, w.head, cmd);
    TilesSnoc(g, w.tail, w.entries, w.head, e);
    GrowingSnoc(0, w.entries, w.tid, e, w.tid + 1);
  }

  /** A submission appends `[PAD,] entry` with the next tid to the FIFO and keeps the ring well formed. */
  lemma SubmitAppends(g: Geometry, v: View, cmd: nat, op: Op)
    requires g.Ok() && Valid(g, v) && CmdOk(g, cmd) && SpaceEnough(g, v.head, v.tail, cmd) && !op.Pad?
    ensures var w := Submit(g, v, cmd, op);
            && v.head < g.size
            && Valid(g, w) && w.tail == v.tail && w.tid == v.tid + 1
            && w.entries == v.entries + PadFor(g, v, cmd)
                          + [Entry(if PadFor(g, v, cmd) == [] then v.head else 0, cmd, op, w.tid, false)]
  {
    PaddingTiles(g, v, cmd);
    InsertPaddingAppends(g, v, cmd);
    PaddingGrows(g, v, cmd);
    PlaceEntry(g, InsertPadding(g, v, cmd), cmd, op);
  }

  /** Neither the padding nor the new entry is written over an entry that has not been reclaimed. */
  lemma SubmitWritesFreeBytes(g: Geometry, v: View, cmd: nat, k: nat, b: nat)
    requires g.Ok() && Valid(g, v) && CmdOk(g, cmd) && SpaceEnough(g, v.head, v.tail, cmd)
    requires k < |v.entries| && v.entries[k].pos <= b < v.entries[k].pos + v.entries[k].len
    ensures var w := InsertPadding(g, v, cmd);
            && !(w.head <= b < w.head + cmd)
            && (w.entries != v.entries ==> !(v.head <= b < g.size))
  {
    PaddingTiles(g, v, cmd);
    var w := InsertPadding(g, v, cmd);
    assert w.entries[k] == v.entries[k];
    FreeSpaceIsDisjoint(g, w.tail, w.entries, w.head, cmd, k);
    SpaceUsedIsTotal(g, v);
    if w.entries != v.entries {
      SpaceEnoughExact(g, v, cmd);
      FreeSpaceIsDisjoint(g, v.tail, v.entries, v.head, g.size - v.head, k);
    }
  }

  // ---------------------------------------------------------------- reclaim

  lemma MarkDoneKeepsTiles(g: Geometry, p: nat, es: seq<Entry>, q: nat, pos: nat)
    requires g.Ok() && Tiles(g, p, es, q)
    ensures Tiles(g, p, MarkDone(es, pos), q) && Total(MarkDone(es, pos)) == Total(es)
    decreases |es|
  {
    if es != [] {
      MarkDoneKeepsTiles(g, After(g, p, es[0].len), es[1..], q, pos);
      assert MarkDone(es, pos)[1..] == MarkDone(es[1..], pos);
    }
  }

  lemma MarkDoneKeepsValid(g: Geometry, v: View, pos: nat)
    requires g.Ok() && Valid(g, v)
    ensures Valid(g, v.(entries := MarkDone(v.entries, pos)))
  {
    MarkDoneKeepsTiles(g, v.tail, v.entries, v.head, pos);
    GrowingMark(0, v.entries, v.tid, pos);
  }

  /** Advancing removes exactly the longest DONE prefix and keeps the rest in place. */
  lemma AdvanceDropsDonePrefix(g: Geometry, v: View)
    requires g.Ok() && Valid(g, v)
    ensures var w := Advance(v);
            && Valid(g, w) && w.head == v.head && w.tid == v.tid
            && (w.entries != [] ==> !w.entries[0].done)
            && Total(w.entries) <= Total(v.entries)
            && exists k :: 0 <= k <= |v.entries| && w.entries == v.entries[k..] && forall i ::
                  0 <= i < k ==> v.entries[i].done
    ensures (forall i :: 0 <= i < |v.entries| ==> v.entries[i].done) ==>
              Advance(v).tail == v.head && Advance(v).entries == []
  {
    var k := DoneCount(v.entries);
    TilesSplit(g, v.tail, v.entries, v.head, k);
    TotalConcat(v.entries[..k], v.entries[k..]);
    GrowingDrop(0, v.entries, v.tid, k);
    assert v.entries[..k] + v.entries[k..] == v.entries;
    var w := Advance(v);
    assert w.entries == v.entries[k..];
    if k < |v.entries| { assert w.entries[|w.entries| - 1] == v.entries[|v.entries| - 1]; }
  }

  // ---------------------------------------------------------------- progress

  /**
   An idle ring takes a command at every head position exactly when twice the command fits;
   the factor two is the exact-fit case, which is charged for padding it does not insert.
   */
  lemma IdleRingAccepts(g: Geometry, cmd: nat)
    requires g.Ok() && CmdOk(g, cmd)
    ensures (forall h: nat :: h < g.size && h % g.align == 0 ==> SpaceEnough(g, h, h, cmd))
              <==> 2 * cmd <= g.size - g.reserved
  {
    if 2 * cmd <= g.size - g.reserved {
      forall h: nat | h < g.size && h % g.align == 0
        ensures SpaceEnough(g, h, h, cmd)
      {
        SpaceEnoughExact(g, View(h, h, [], 0), cmd);
      }
    } else {
      var h := if cmd <= g.size then g.size - cmd else 0;
      if cmd <= g.size { AlignedSum(g.align, g.size, cmd); }
      assert h < g.size && h % g.align == 0;
      SpaceEnoughExact(g, View(h, h, [], 0), cmd);
      assert !SpaceEnough(g, h, h, cmd);
    }
  }
}
