/**
 The data-page pool of one queue: a bitmap allocator over a sparse page cache, shared by concurrent
 workers that drop the lock to allocate and by completers that give pages back.

 `Core` is what `pages_mutex` protects; `State` adds the local variables of every request that is
 between its first claim and its last release. Every action is one critical section.
 */
module Pool {
  import Ring

  type Page = nat
  type Id = nat

  datatype Option<T> = None | Some(value: T)

  datatype Core = Core(dataPages: nat, reserved: nat, bits: set<nat>, xa: map<nat, Page>, pageCount: int,
      mapped: map<nat, Page>)

  /** find_first_zero_bit from `k`: the least clear index below `n`, or `n`. */
  function FirstZero(bits: set<nat>, k: nat, n: nat): (i: nat)
    requires k <= n
    ensures k <= i <= n
    ensures i < n ==> i !in bits
    ensures forall j :: k <= j < i ==> j in bits
    decreases n - k
  {
    if k == n || k !in bits then k else FirstZero(bits, k + 1, n)
  }

  const PAGE: nat := 4096

  /** A product in C's `int`. */
  function I32(x: int): int { (x + 0x8000_0000) % 0x1_0000_0000 - 0x8000_0000 }

  /** The data index ubbd_release_page unmaps for index `i`: its `int` product in pages, or none when negative. */
  function UnmapIndex(i: nat): int { I32(i * PAGE) / PAGE }

  const INT_PAGES: nat := 0x8_0000

  /** The unmap hits its own index exactly below 2^19. */
  lemma UnmapHitsBelow(i: nat)
    ensures UnmapIndex(i) == i <==> i < INT_PAGES
  {
    if i < INT_PAGES {
      assert I32(i * PAGE) == i * PAGE;
    } else {
      assert I32(i * PAGE) < 0x8000_0000;
    }
  }

  function Unmap(mapped: map<nat, Page>, i: nat): map<nat, Page> {
    if UnmapIndex(i) < 0 then mapped else mapped - {UnmapIndex(i)}
  }

  /** ubbd_release_page: clear the bit; above the reserve also unmap and free the page. */
  function Release(c: Core, i: nat): Core {
    var d := c.(bits := c.bits - {i});
    if d.pageCount > d.reserved && i in d.xa
    then d.(mapped := Unmap(d.mapped, i), xa := d.xa - {i}, pageCount := d.pageCount - 1)
    else d
  }

  datatype Claimed = Full | StoreFailed | NoPage | Got(index: nat, usedHand: bool)

  /** One pass through `again` in ubbd_get_data_pages, for a worker holding `hand`. */
  function Claim(c: Core, hand: Option<Page>, storeOk: bool): (r: Claimed)
    ensures r.Got? && r.usedHand ==> hand.Some?
  {
    var i := FirstZero(c.bits, 0, c.dataPages);
    if i == c.dataPages then Full
    else if i in c.xa then Got(i, false)
    else if hand.None? then NoPage
    else if !storeOk then StoreFailed
    else Got(i, true)
  }

  /** The pool after a pass: the claimed bit is set, and the page in hand is stored if it was used. */
  function Taken(c: Core, hand: Option<Page>, r: Claimed): Core
    requires r.Got? && r.usedHand ==> hand.Some?
  {
    if !r.Got? then c
    else c.(bits := c.bits + {r.index}, xa := if r.usedHand then c.xa[r.index := hand.value] else c.xa)
  }

  /** `dp_reserve_percnt * data_pages / 100` with the `u32` product of the source. */
  function Reserve(percent: nat, dataPages: nat): nat {
    Ring.U32(percent * dataPages) / 100
  }

  /** Even when the product wraps, the reserve is never more than the pool. */
  lemma ReserveWithinPool(percent: nat, dataPages: nat)
    requires percent <= 100
    ensures Reserve(percent, dataPages) <= dataPages
  {
    var x := percent * dataPages;
    assert x <= 100 * dataPages by {
      if percent < 100 { MulMono(percent, 100, dataPages); }
    }
    assert Ring.U32(x) <= x;
  }

  /** It is the whole part of the percentage, unless the product wraps. */
  lemma ReserveIsPercentage(percent: nat, dataPages: nat)
    ensures 100 * Reserve(percent, dataPages) <= Ring.U32(percent * dataPages) < 100 * Reserve(percent, dataPages) + 100
    ensures percent * dataPages < Ring.U32_LIMIT ==>
              100 * Reserve(percent, dataPages) <= percent * dataPages < 100 * Reserve(percent, dataPages) + 100
  {
  }

  lemma MulMono(a: nat, b: nat, m: nat)
    requires a <= b
    ensures a * m <= b * m
  {
  }

  // ---------------------------------------------------------------- requests that hold pages

  /** Filling and NeedPage are inside ubbd_get_data_pages; Undoing is its error path; Freeing is ubbd_req_release. */
  datatype Mode = Filling | NeedPage | Undoing | Held | Freeing

  /** `passes` counts the passes already spent on the current segment without claiming a page. */
  datatype Holder = Holder(want: nat, pis: seq<nat>, mode: Mode, passes: nat)

  /** Who a set bit belongs to; history only, no step reads it. */
  datatype Owner = ByRequest(id: Id) | Stranded

  datatype State = State(core: Core, hands: map<Id, Page>, holders: map<Id, Holder>, owner: map<nat, Owner>, peak: nat)

  datatype Action =
    | Begin(id: Id, want: nat)
    | Pass(id: Id, storeOk: bool)
    | AllocPage(id: Id, page: Option<Page>)
    | DropHand(id: Id)
    | Settle(id: Id)
    | Undo(id: Id)
    | Fail(id: Id)
    | Free(id: Id)
    | Gone(id: Id)
    | Strand(id: Id)
    | Fault(index: nat)
    | SetReserve(percent: nat)

  function Init(dataPages: nat): State {
    var r := Reserve(75, dataPages);
    State(Core(dataPages, r, {}, map[], 0, map[]), map[], map[], map[], r)
  }

  function Hand(s: State, id: Id): Option<Page> {
    if id in s.hands then Some(s.hands[id]) else None
  }

  predicate In(s: State, id: Id, mode: Mode) {
    id in s.holders && s.holders[id].mode == mode
  }

  predicate Filled(s: State, id: Id) {
    In(s, id, Filling) && |s.holders[id].pis| >= s.holders[id].want
  }

  /** alloc_page never returns a page that is in use. */
  ghost predicate Unused(s: State, p: Page) {
    && (forall i :: i in s.core.xa ==> s.core.xa[i] != p)
    && (forall h :: h in s.hands ==> s.hands[h] != p)
  }

  ghost predicate Enabled(s: State, a: Action) {
    match a
    case Begin(id, _) => id !in s.holders
    case Pass(id, _) => In(s, id, Filling) && !Filled(s, id)
    case AllocPage(id, p) => In(s, id, NeedPage) && (p.Some? ==> Unused(s, p.value))
    case DropHand(id) => id in s.hands && (In(s, id, Undoing) || Filled(s, id))
    case Settle(id) => Filled(s, id) && id !in s.hands
    case Undo(id) => In(s, id, Undoing) && id !in s.hands && s.holders[id].pis != []
    case Fail(id) => In(s, id, Undoing) && id !in s.hands && s.holders[id].pis == []
    case Free(id) => (In(s, id, Held) || In(s, id, Freeing)) && s.holders[id].pis != []
    case Gone(id) => (In(s, id, Held) || In(s, id, Freeing)) && s.holders[id].pis == []
    case Strand(id) => In(s, id, Held)
    case Fault(i) => i in s.core.xa
    case SetReserve(percent) => percent <= 100
  }

  function SetMode(s: State, id: Id, mode: Mode): State
    requires id in s.holders
  {
    s.(holders := s.holders[id := s.holders[id].(mode := mode)])
  }

  /** What a pass does to the state; new_page stays in the worker's hand unless it was stored. */
  function AfterPass(s: State, id: Id, storeOk: bool): State
    requires id in s.holders
  {
    var h := s.holders[id];
    var r := Claim(s.core, Hand(s, id), storeOk);
    match r
    case Full => SetMode(s, id, Undoing)
    case StoreFailed => SetMode(s, id, Undoing)
    case NoPage => s.(holders := s.holders[id := h.(mode := NeedPage, passes := h.passes + 1)])
    case Got(i, used) =>
      s.(core := Taken(s.core, Hand(s, id), r),
         hands := if used then s.hands - {id} else s.hands,
         holders := s.holders[id := h.(pis := h.pis + [i], passes := 0)],
         owner := s.owner[i := ByRequest(id)])
  }

  /** The next ubbd_queue_rq clears the request, and with it the only record of these indices. */
  function Abandon(s: State, id: Id): State {
    s.(holders := s.holders - {id},
       owner := map i | i in s.owner :: if s.owner[i] == ByRequest(id) then Stranded else s.owner[i])
  }

  function Next(s: State, a: Action): State
    requires Enabled(s, a)
  {
    match a
    case Begin(id, want) => s.(holders := s.holders[id := Holder(want, [], Filling, 0)])
    case Pass(id, storeOk) => AfterPass(s, id, storeOk)
    case AllocPage(id, p) =>
      if p.None? then SetMode(s, id, Undoing)
      else SetMode(s, id, Filling).(hands := s.hands[id := p.value], core := s.core.(pageCount := s.core.pageCount + 1))
    case DropHand(id) => s.(hands := s.hands - {id}, core := s.core.(pageCount := s.core.pageCount - 1))
    case Settle(id) => SetMode(s, id, Held)
    case Undo(id) =>
      var h := s.holders[id];
      var i := h.pis[|h.pis| - 1];
      s.(core := Release(s.core, i), owner := s.owner - {i},
          holders := s.holders[id := h.(pis := h.pis[..|h.pis| - 1])])
    case Fail(id) => s.(holders := s.holders - {id})
    case Free(id) =>
      var h := s.holders[id];
      s.(core := Release(s.core, h.pis[0]), owner := s.owner - {h.pis[0]},
         holders := s.holders[id := h.(pis := h.pis[1..], mode := Freeing)])
    case Gone(id) => s.(holders := s.holders - {id})
    case Strand(id) => Abandon(s, id)
    case Fault(i) => s.(core := s.core.(mapped := s.core.mapped[i := s.core.xa[i]]))
    case SetReserve(percent) =>
      var r := Reserve(percent, s.core.dataPages);
      s.(core := s.core.(reserved := r), peak := if r > s.peak then r else s.peak)
  }

  // ---------------------------------------------------------------- the invariant

  ghost predicate Distinct(xs: seq<nat>) {
    forall i, j :: 0 <= i < j < |xs| ==> xs[i] != xs[j]
  }

  /** The indices of one request: pairwise distinct and all recorded as its own. */
  ghost predicate Owns(owner: map<nat, Owner>, id: Id, pis: seq<nat>) {
    && Distinct(pis)
    && forall k :: 0 <= k < |pis| ==> pis[k] in owner && owner[pis[k]] == ByRequest(id)
  }

  /** An index recorded for a request is one the request holds. */
  ghost predicate Backed(s: State, i: nat)
    requires i in s.owner
  {
    s.owner[i].ByRequest? ==> s.owner[i].id in s.holders && i in s.holders[s.owner[i].id].pis
  }

  /** Set bits are partitioned among the requests that hold them and the stranded ones. */
  ghost predicate Partition(s: State) {
    && s.core.bits == s.owner.Keys
    && (forall i :: i in s.owner ==> i < s.core.dataPages)
    && (forall id :: id in s.holders ==> Owns(s.owner, id, s.holders[id].pis))
    && (forall i :: i in s.owner ==> Backed(s, i))
  }

  /** Every set bit has a page, and no page is in two places. */
  ghost predicate Storage(s: State) {
    && s.core.bits <= s.core.xa.Keys
    && (forall i :: i in s.core.xa ==> i < s.core.dataPages)
    && (forall i, j :: i in s.core.xa && j in s.core.xa && s.core.xa[i] == s.core.xa[j] ==> i == j)
    && (forall h, i :: h in s.hands && i in s.core.xa ==> s.hands[h] != s.core.xa[i])
    && (forall g, h :: g in s.hands && h in s.hands && s.hands[g] == s.hands[h] ==> g == h)
  }

  /** The page counter is exact, and idle cached pages stay within the largest reserve in force so far. */
  ghost predicate Counting(s: State) {
    && s.core.pageCount == |s.core.xa| + |s.hands|
    && |s.core.xa.Keys - s.core.bits| <= s.peak
    && s.core.reserved <= s.peak <= s.core.dataPages
  }

  /** What userspace has mapped at `i`, if anything, is what the page cache holds there. */
  predicate CoherentAt(s: State, i: nat) {
    i in s.core.mapped ==> i in s.core.xa && s.core.mapped[i] == s.core.xa[i]
  }

  /** Mappings are those of the pool, and coherent as far as the unmap can count. */
  ghost predicate Coherent(s: State) {
    && (forall i :: i in s.core.mapped ==> i < s.core.dataPages)
    && (forall i :: i in s.core.mapped && i < INT_PAGES ==> CoherentAt(s, i))
  }

  ghost predicate HolderOk(s: State, id: Id)
    requires id in s.holders
  {
    var h := s.holders[id];
    && |h.pis| <= h.want
    && h.passes <= 1
    && (h.mode == NeedPage ==> id !in s.hands && h.passes == 1 && |h.pis| < h.want)
    && (h.mode == Filling ==> (h.passes == 1 ==> id in s.hands && |h.pis| < h.want))
    && (h.mode == Held ==> |h.pis| == h.want)
    && (h.mode == Held || h.mode == Freeing ==> id !in s.hands)
  }

  ghost predicate Modes(s: State) {
    && (forall id :: id in s.holders ==> HolderOk(s, id))
    && (forall id :: id in s.hands ==> id in s.holders)
  }

  ghost predicate Inv(s: State) {
    Partition(s) && Storage(s) && Counting(s) && Coherent(s) && Modes(s)
  }

  // ---------------------------------------------------------------- preservation

  lemma InsertSize<K, V>(m: map<K, V>, k: K, v: V)
    requires k !in m
    ensures |m[k := v]| == |m| + 1
  {
    assert m[k := v].Keys == m.Keys + {k};
  }

  lemma RemoveSize<K, V>(m: map<K, V>, k: K)
    requires k in m
    ensures |m - {k}| == |m| - 1
  {
    assert (m - {k}).Keys == m.Keys - {k};
  }

  lemma SubsetSize<T>(a: set<T>, b: set<T>)
    requires a <= b
    ensures |a| <= |b|
  {
    assert b == a + (b - a);
  }

  function Elements(xs: seq<nat>): set<nat> { set i | i in xs }

  lemma ElementsSnoc(xs: seq<nat>, x: nat)
    ensures Elements(xs + [x]) == Elements(xs) + {x}
  {
  }

  lemma ElementsCons(x: nat, xs: seq<nat>)
    ensures Elements([x] + xs) == {x} + Elements(xs)
  {
  }

  lemma {:induction false} ElementsSize(xs: seq<nat>)
    requires Distinct(xs)
    ensures |Elements(xs)| == |xs|
  {
    if xs == [] {
      assert Elements(xs) == {};
    } else {
      var n := |xs| - 1;
      ElementsSize(xs[..n]);
      assert xs == xs[..n] + [xs[n]];
      ElementsSnoc(xs[..n], xs[n]);
    }
  }

  /** A set of numbers below `n` has `n` members exactly when it has all of them. */
  lemma BelowSize(bits: set<nat>, n: nat)
    requires forall i :: i in bits ==> i < n
    ensures |bits| <= n
    ensures |bits| == n <==> forall i: nat :: i < n ==> i in bits
  {
    if n == 0 {
      assert bits == {};
    } else {
      var rest := bits - {n - 1};
      BelowSize(rest, n - 1);
      if n - 1 in bits {
        assert bits == rest + {n - 1};
      } else {
        assert bits == rest;
      }
    }
  }

  /** A number outside a finite set. */
  lemma {:induction false} Fresh(n: nat, s: set<nat>) returns (x: nat)
    requires |s| < n
    ensures x < n && x !in s
    decreases n
  {
    if n - 1 in s { x := Fresh(n - 1, s - {n - 1}); } else { x := n - 1; }
  }

  /** A step that leaves bits, owners and every index list alone. */
  ghost predicate SamePages(s: State, t: State) {
    && t.core.bits == s.core.bits && t.core.dataPages == s.core.dataPages && t.owner == s.owner
    && (forall id :: id in t.holders && t.holders[id].pis != [] ==>
          id in s.holders && t.holders[id].pis == s.holders[id].pis)
    && (forall id :: id in s.holders && s.holders[id].pis != [] ==>
          id in t.holders && t.holders[id].pis == s.holders[id].pis)
  }

  lemma PartitionSame(s: State, t: State)
    requires Partition(s) && SamePages(s, t)
    ensures Partition(t)
  {
    forall i | i in t.owner ensures Backed(t, i) { assert Backed(s, i); }
  }

  /** Claiming a clear bit. */
  lemma PartitionClaim(s: State, t: State, id: Id, i: nat)
    requires Partition(s) && id in s.holders && i !in s.core.bits && i < s.core.dataPages
    requires t.core.dataPages == s.core.dataPages && t.core.bits == s.core.bits + {i}
             && t.owner == s.owner[i := ByRequest(id)]
    requires id in t.holders && t.holders == s.holders[id := t.holders[id]]
             && t.holders[id].pis == s.holders[id].pis + [i]
    ensures Partition(t)
  {
    assert Owns(t.owner, id, t.holders[id].pis) by { assert Owns(s.owner, id, s.holders[id].pis); }
    forall j | j in t.owner ensures Backed(t, j) {
      if j == i {
        assert t.holders[id].pis[|s.holders[id].pis|] == i;
      } else {
        assert Backed(s, j);
      }
    }
  }

  lemma OwnsShrinks(owner: map<nat, Owner>, id: Id, was: seq<nat>, now: seq<nat>, i: nat)
    requires Owns(owner, id, was) && (was == now + [i] || was == [i] + now)
    ensures i in owner && owner[i] == ByRequest(id)
    ensures Owns(owner - {i}, id, now) && forall j :: j in was && j != i ==> j in now
  {
    if was == now + [i] {
      assert was[|now|] == i;
      assert forall k :: 0 <= k < |now| ==> now[k] == was[k];
    } else {
      assert was[0] == i;
      assert forall k :: 0 <= k < |now| ==> now[k] == was[k + 1];
    }
  }

  /** Giving one index back, from either end of a request's list. */
  lemma PartitionRelease(s: State, t: State, id: Id, i: nat)
    requires Partition(s) && id in s.holders
    requires t.core.dataPages == s.core.dataPages && t.core.bits == s.core.bits - {i} && t.owner == s.owner - {i}
    requires id in t.holders && t.holders == s.holders[id := t.holders[id]]
    requires s.holders[id].pis == t.holders[id].pis + [i] || s.holders[id].pis == [i] + t.holders[id].pis
    ensures Partition(t)
  {
    OwnsShrinks(s.owner, id, s.holders[id].pis, t.holders[id].pis, i);
    forall j | j in t.holders && j != id ensures Owns(t.owner, j, t.holders[j].pis) {
      assert Owns(s.owner, j, s.holders[j].pis);
    }
    forall j | j in t.owner ensures Backed(t, j) { assert Backed(s, j); }
  }

  lemma PartitionStrand(s: State, id: Id)
    requires Partition(s) && In(s, id, Held)
    ensures Partition(Next(s, Strand(id)))
  {
    var t := Next(s, Strand(id));
    assert t.owner.Keys == s.owner.Keys;
    forall j | j in t.holders ensures Owns(t.owner, j, t.holders[j].pis) {
      assert Owns(s.owner, j, s.holders[j].pis);
    }
    forall j | j in t.owner ensures Backed(t, j) { assert Backed(s, j); }
  }

  lemma PartitionPass(s: State, id: Id, storeOk: bool)
    requires Partition(s) && In(s, id, Filling)
    ensures Partition(AfterPass(s, id, storeOk))
  {
    var t := AfterPass(s, id, storeOk);
    var c := Claim(s.core, Hand(s, id), storeOk);
    if c.Got? { PartitionClaim(s, t, id, c.index); } else { PartitionSame(s, t); }
  }

  lemma PartitionUndo(s: State, id: Id)
    requires Partition(s) && Enabled(s, Undo(id))
    ensures Partition(Next(s, Undo(id)))
  {
    var pis := s.holders[id].pis;
    assert pis == pis[..|pis| - 1] + [pis[|pis| - 1]];
    PartitionRelease(s, Next(s, Undo(id)), id, pis[|pis| - 1]);
  }

  lemma PartitionFree(s: State, id: Id)
    requires Partition(s) && Enabled(s, Free(id))
    ensures Partition(Next(s, Free(id)))
  {
    var pis := s.holders[id].pis;
    assert pis == [pis[0]] + pis[1..];
    PartitionRelease(s, Next(s, Free(id)), id, pis[0]);
  }

  lemma StepPartition(s: State, a: Action)
    requires Partition(s) && Enabled(s, a)
    ensures Partition(Next(s, a))
  {
    match a
    case Pass(id, storeOk) => PartitionPass(s, id, storeOk);
    case Undo(id) => PartitionUndo(s, id);
    case Free(id) => PartitionFree(s, id);
    case Strand(id) => PartitionStrand(s, id);
    case _ => PartitionOther(s, a);
  }

  lemma PartitionOther(s: State, a: Action)
    requires Partition(s) && Enabled(s, a) && !a.Pass? && !a.Undo? && !a.Free? && !a.Strand?
    ensures Partition(Next(s, a))
  {
    PartitionSame(s, Next(s, a));
  }

  lemma StepStorage(s: State, a: Action)
    requires Partition(s) && Storage(s) && Enabled(s, a)
    ensures Storage(Next(s, a))
  {
    var t := Next(s, a);
    match a
    case Pass(id, storeOk) => PassStorage(s, id, storeOk);
    case Undo(id) => ReleaseStorage(s, t, s.holders[id].pis[|s.holders[id].pis| - 1]);
    case Free(id) => ReleaseStorage(s, t, s.holders[id].pis[0]);
    case _ =>
  }

  lemma PassStorage(s: State, id: Id, storeOk: bool)
    requires Storage(s) && In(s, id, Filling)
    ensures Storage(AfterPass(s, id, storeOk))
  {
  }

  lemma ReleaseStorage(s: State, t: State, i: nat)
    requires Storage(s) && t.core == Release(s.core, i) && t.hands == s.hands
    ensures Storage(t)
  {
  }

  lemma ReleaseCounts(s: State, i: nat)
    requires Storage(s) && Counting(s) && i in s.core.bits
    ensures var c := Release(s.core, i);
            && c.pageCount == |c.xa| + |s.hands|
            && |c.xa.Keys - c.bits| <= s.peak
  {
    var c := Release(s.core, i);
    assert i in s.core.xa;
    if s.core.pageCount > s.core.reserved {
      RemoveSize(s.core.xa, i);
      assert c.xa.Keys - c.bits == s.core.xa.Keys - s.core.bits;
    } else {
      SubsetSize(c.xa.Keys - c.bits, s.core.xa.Keys);
    }
  }

  lemma PassCounts(s: State, id: Id, storeOk: bool)
    requires Counting(s) && In(s, id, Filling)
    ensures Counting(AfterPass(s, id, storeOk))
  {
    var t := AfterPass(s, id, storeOk);
    var c := Claim(s.core, Hand(s, id), storeOk);
    if c.Got? {
      if c.usedHand {
        InsertSize(s.core.xa, c.index, s.hands[id]);
        RemoveSize(s.hands, id);
      }
      SubsetSize(t.core.xa.Keys - t.core.bits, s.core.xa.Keys - s.core.bits);
    }
  }

  lemma CountsAfterRelease(s: State, t: State, i: nat)
    requires Storage(s) && Counting(s) && i in s.core.bits
    requires t.core == Release(s.core, i) && t.hands == s.hands && t.peak == s.peak
    ensures Counting(t)
  {
    ReleaseCounts(s, i);
  }

  lemma HeldIsSet(s: State, id: Id, k: nat)
    requires Partition(s) && id in s.holders && k < |s.holders[id].pis|
    ensures s.holders[id].pis[k] in s.core.bits
  {
    assert Owns(s.owner, id, s.holders[id].pis);
  }

  lemma UndoCounts(s: State, id: Id)
    requires Partition(s) && Storage(s) && Counting(s) && Enabled(s, Undo(id))
    ensures Counting(Next(s, Undo(id)))
  {
    HeldIsSet(s, id, |s.holders[id].pis| - 1);
    CountsAfterRelease(s, Next(s, Undo(id)), s.holders[id].pis[|s.holders[id].pis| - 1]);
  }

  lemma FreeCounts(s: State, id: Id)
    requires Partition(s) && Storage(s) && Counting(s) && Enabled(s, Free(id))
    ensures Counting(Next(s, Free(id)))
  {
    HeldIsSet(s, id, 0);
    CountsAfterRelease(s, Next(s, Free(id)), s.holders[id].pis[0]);
  }

  lemma StepCounting(s: State, a: Action)
    requires Partition(s) && Storage(s) && Counting(s) && Modes(s) && Enabled(s, a)
    ensures Counting(Next(s, a))
  {
    match a
    case Pass(id, storeOk) => PassCounts(s, id, storeOk);
    case AllocPage(id, p) =>
      assert HolderOk(s, id);
      if p.Some? { InsertSize(s.hands, id, p.value); }
    case DropHand(id) => RemoveSize(s.hands, id);
    case Undo(id) => UndoCounts(s, id);
    case Free(id) => FreeCounts(s, id);
    case SetReserve(percent) => ReserveWithinPool(percent, s.core.dataPages);
    case _ =>
  }

  lemma ReleaseCoherent(s: State, t: State, i: nat)
    requires Coherent(s) && t.core == Release(s.core, i)
    ensures Coherent(t)
  {
    UnmapHitsBelow(i);
    forall j | j in t.core.mapped && j < INT_PAGES ensures CoherentAt(t, j) { assert CoherentAt(s, j); }
  }

  /** A step that unmaps nothing and erases nothing. */
  lemma CoherentStays(s: State, t: State)
    requires Coherent(s) && t.core.mapped == s.core.mapped && t.core.dataPages == s.core.dataPages
    requires forall i :: i in s.core.xa ==> i in t.core.xa && t.core.xa[i] == s.core.xa[i]
    ensures Coherent(t)
  {
    forall i | i in t.core.mapped && i < INT_PAGES ensures CoherentAt(t, i) { assert CoherentAt(s, i); }
  }

  lemma FaultCoherent(s: State, i: nat)
    requires Coherent(s) && Storage(s) && Enabled(s, Fault(i))
    ensures Coherent(Next(s, Fault(i)))
  {
    var t := Next(s, Fault(i));
    forall j | j in t.core.mapped && j < INT_PAGES ensures CoherentAt(t, j) { if j != i { assert CoherentAt(s, j); } }
  }

  lemma StepCoherent(s: State, a: Action)
    requires Coherent(s) && Storage(s) && Enabled(s, a)
    ensures Coherent(Next(s, a))
  {
    match a
    case Undo(id) => ReleaseCoherent(s, Next(s, a), s.holders[id].pis[|s.holders[id].pis| - 1]);
    case Free(id) => ReleaseCoherent(s, Next(s, a), s.holders[id].pis[0]);
    case Fault(i) => FaultCoherent(s, i);
    case _ => CoherentStays(s, Next(s, a));
  }

  /** Only the acting request's local state changes. */
  lemma StepModes(s: State, a: Action)
    requires Modes(s) && Enabled(s, a)
    ensures Modes(Next(s, a))
  {
    var t := Next(s, a);
    forall id | id in t.holders
      ensures HolderOk(t, id)
    {
      if id in s.holders { assert HolderOk(s, id); }
      if a.Pass? { PassMode(s, a.id, a.storeOk, id); }
    }
  }

  lemma PassMode(s: State, id: Id, storeOk: bool, other: Id)
    requires Modes(s) && In(s, id, Filling) && !Filled(s, id) && other in s.holders
    ensures HolderOk(AfterPass(s, id, storeOk), other)
  {
    assert HolderOk(s, other) && HolderOk(s, id);
  }

  lemma StepInv(s: State, a: Action)
    requires Inv(s) && Enabled(s, a)
    ensures Inv(Next(s, a))
  {
    StepPartition(s, a);
    StepStorage(s, a);
    StepCounting(s, a);
    StepCoherent(s, a);
    StepModes(s, a);
  }

  // ---------------------------------------------------------------- every run

  ghost predicate RunOk(s: State, run: seq<Action>)
    decreases |run|
  {
    run == [] || (Enabled(s, run[0]) && RunOk(Next(s, run[0]), run[1..]))
  }

  ghost function Final(s: State, run: seq<Action>): State
    requires RunOk(s, run)
    decreases |run|
  {
    if run == [] then s else Final(Next(s, run[0]), run[1..])
  }

  lemma InitInv(dataPages: nat)
    ensures Inv(Init(dataPages))
  {
    ReserveWithinPool(75, dataPages);
  }

  lemma {:induction false} RunInv(s: State, run: seq<Action>)
    requires Inv(s) && RunOk(s, run)
    ensures Inv(Final(s, run))
    decreases |run|
  {
    if run != [] {
      StepInv(s, run[0]);
      RunInv(Next(s, run[0]), run[1..]);
    }
  }

  /** A reserve that is never reconfigured is its own peak. */
  lemma {:induction false} FixedReserve(s: State, run: seq<Action>)
    requires RunOk(s, run) && s.peak == s.core.reserved
    requires forall k :: 0 <= k < |run| ==> !run[k].SetReserve?
    ensures Final(s, run).peak == Final(s, run).core.reserved == s.peak
    decreases |run|
  {
    if run != [] {
      assert !run[0].SetReserve?;
      StepKeepsReserve(s, run[0]);
      FixedReserve(Next(s, run[0]), run[1..]);
    }
  }

  lemma StepKeepsReserve(s: State, a: Action)
    requires Enabled(s, a) && !a.SetReserve?
    ensures Next(s, a).core.reserved == s.core.reserved && Next(s, a).peak == s.peak
  {
  }

  ghost predicate Reachable(dataPages: nat, s: State) {
    exists run :: RunOk(Init(dataPages), run) && Final(Init(dataPages), run) == s
  }

  lemma ReachableInv(dataPages: nat, s: State)
    requires Reachable(dataPages, s)
    ensures Inv(s)
  {
    var run :| RunOk(Init(dataPages), run) && Final(Init(dataPages), run) == s;
    InitInv(dataPages);
    RunInv(Init(dataPages), run);
  }

  /** The index of segment `k` of request `id`, if it holds one. */
  ghost predicate Holds(s: State, id: Id, k: nat, i: nat) {
    id in s.holders && k < |s.holders[id].pis| && s.holders[id].pis[k] == i
  }

  /**
   In every reachable state no index is held twice, every held index has a page (so the copy loops
   always find one) and no two held indices share a page; a set bit nobody holds is a stranded one.
   */
  lemma PagesArePartitioned(dataPages: nat, s: State)
    requires Reachable(dataPages, s)
    ensures forall id, k, id', k', i :: Holds(s, id, k, i) && Holds(s, id', k', i) ==> id == id' && k == k'
    ensures forall id, k, i :: Holds(s, id, k, i) ==> i in s.core.bits && i in s.core.xa
    ensures forall i, j :: i in s.core.xa && j in s.core.xa && s.core.xa[i] == s.core.xa[j] ==> i == j
    ensures forall i :: i in s.core.bits ==>
              i in s.owner && (s.owner[i].Stranded? <==> !exists id, k :: Holds(s, id, k, i))
  {
    ReachableInv(dataPages, s);
    forall id, k, i | Holds(s, id, k, i)
      ensures i in s.owner && s.owner[i] == ByRequest(id)
    {
      assert Owns(s.owner, id, s.holders[id].pis);
    }
    forall id, k, id', k', i | Holds(s, id, k, i) && Holds(s, id', k', i)
      ensures id == id' && k == k'
    {
      assert Owns(s.owner, id, s.holders[id].pis);
    }
    forall i | i in s.core.bits && s.owner[i].ByRequest?
      ensures exists id, k :: Holds(s, id, k, i)
    {
      assert Backed(s, i);
      var id := s.owner[i].id;
      var k: nat :| k < |s.holders[id].pis| && s.holders[id].pis[k] == i;
      assert Holds(s, id, k, i);
    }
  }

  /** The page counter is the cached pages plus those in workers' hands. */
  lemma PageCountIsExact(dataPages: nat, s: State)
    requires Reachable(dataPages, s)
    ensures s.core.pageCount == |s.core.xa| + |s.hands|
    ensures |s.core.xa.Keys - s.core.bits| <= s.peak <= s.core.dataPages
  {
    ReachableInv(dataPages, s);
  }

  /** With no bit set and nothing in hand, the pages still allocated fit the reserve, and the reserve fits the pool. */
  lemma QuietPoolWithinReserve(dataPages: nat, run: seq<Action>)
    requires RunOk(Init(dataPages), run)
    requires forall k :: 0 <= k < |run| ==> !run[k].SetReserve?
    requires var s := Final(Init(dataPages), run); s.core.bits == {} && s.hands == map[]
    ensures var s := Final(Init(dataPages), run);
            0 <= s.core.pageCount <= s.core.reserved <= s.core.dataPages
  {
    var s := Final(Init(dataPages), run);
    InitInv(dataPages);
    RunInv(Init(dataPages), run);
    FixedReserve(Init(dataPages), run);
    assert s.core.xa.Keys - s.core.bits == s.core.xa.Keys;
  }

  /** The pass of a worker whose previous pass claimed nothing. */
  lemma PassAgain(s: State, id: Id, storeOk: bool)
    requires id in s.holders && HolderOk(s, id) && Enabled(s, Pass(id, storeOk)) && s.holders[id].passes > 0
    ensures var h, t := s.holders[id], AfterPass(s, id, storeOk).holders[id];
            h.passes == 1 && (t.mode == Undoing
                || (t == h.(pis := t.pis, passes := 0) && |t.pis| == |h.pis| + 1 && h.pis < t.pis))
  {
    var c := Claim(s.core, Hand(s, id), storeOk);
  }

  /** Whatever other workers do in between, the second pass over a segment claims a page or ends the call. */
  lemma SecondPassDecides(dataPages: nat, s: State, id: Id, storeOk: bool)
    requires Reachable(dataPages, s) && Enabled(s, Pass(id, storeOk)) && s.holders[id].passes > 0
    ensures s.holders[id].passes == 1
    ensures var h, t := s.holders[id], Next(s, Pass(id, storeOk)).holders[id];
            t.mode == Undoing || (|t.pis| == |h.pis| + 1 && h.pis < t.pis && t.passes == 0)
  {
    ReachableInv(dataPages, s);
    PassAgain(s, id, storeOk);
  }

  /** A call that ends, whether it failed or released everything, leaves no bit and no page behind. */
  lemma EndedCallHoldsNothing(dataPages: nat, s: State, a: Action)
    requires Reachable(dataPages, s) && (a.Fail? || a.Gone?) && Enabled(s, a)
    ensures a.id !in s.hands
    ensures forall i :: i in s.owner ==> s.owner[i] != ByRequest(a.id)
  {
    ReachableInv(dataPages, s);
    assert HolderOk(s, a.id);
    forall i | i in s.owner ensures s.owner[i] != ByRequest(a.id) { assert Backed(s, i); }
  }

  // ---------------------------------------------------------------- stranded pages

  /** A set bit that no request holds. */
  ghost predicate Unheld(s: State, i: nat) {
    i in s.core.bits && forall id :: id in s.holders ==> i !in s.holders[id].pis
  }

  predicate IsStranded(s: State, i: nat) { i in s.owner && s.owner[i].Stranded? }

  /** A request that holds index `i` is cleared without giving it back. */
  predicate Drops(s: State, a: Action, i: nat) {
    a.Strand? && a.id in s.holders && i in s.holders[a.id].pis
  }

  ghost predicate EverDropped(s: State, run: seq<Action>, i: nat)
    requires RunOk(s, run)
    decreases |run|
  {
    run != [] && (Drops(s, run[0], i) || EverDropped(Next(s, run[0]), run[1..], i))
  }

  lemma UnheldIsStranded(s: State, i: nat)
    requires Partition(s)
    ensures Unheld(s, i) <==> IsStranded(s, i)
  {
    if i in s.owner {
      assert Backed(s, i);
      forall id | id in s.holders && i in s.holders[id].pis ensures s.owner[i] == ByRequest(id) {
        assert Owns(s.owner, id, s.holders[id].pis);
      }
    }
  }

  lemma StrandedPass(s: State, id: Id, storeOk: bool, i: nat)
    requires Partition(s) && In(s, id, Filling)
    ensures IsStranded(AfterPass(s, id, storeOk), i) <==> IsStranded(s, i)
  {
    var c := Claim(s.core, Hand(s, id), storeOk);
  }

  lemma StrandedStep(s: State, a: Action, i: nat)
    requires Partition(s) && Enabled(s, a)
    ensures IsStranded(Next(s, a), i) <==> IsStranded(s, i) || Drops(s, a, i)
  {
    match a
    case Pass(id, storeOk) => StrandedPass(s, id, storeOk, i);
    case Undo(id) => assert Owns(s.owner, id, s.holders[id].pis);
    case Free(id) => assert Owns(s.owner, id, s.holders[id].pis);
    case Strand(id) =>
      assert Owns(s.owner, id, s.holders[id].pis);
      assert i in s.owner ==> Backed(s, i);
    case _ =>
  }

  /**
   Over every run, a set bit ends up held by nobody exactly when it was so before or some request that
   held it was cleared on the way. So the loss is for good: no continuation gives such a bit back.
   */
  lemma {:induction false} LostIffDropped(s: State, run: seq<Action>, i: nat)
    requires Inv(s) && RunOk(s, run)
    ensures Unheld(Final(s, run), i) <==> Unheld(s, i) || EverDropped(s, run, i)
    decreases |run|
  {
    if run != [] {
      var t := Next(s, run[0]);
      StepInv(s, run[0]);
      LostIffDropped(t, run[1..], i);
      UnheldIsStranded(s, i);
      UnheldIsStranded(t, i);
      StrandedStep(s, run[0], i);
    }
  }

  // ---------------------------------------------------------------- giving everything back

  /** What a release changes in numbers: reserve, set bits, allocated pages. */
  datatype Meter = Meter(reserved: nat, bits: int, pages: int)

  function MeterOf(c: Core): Meter { Meter(c.reserved, |c.bits|, c.pageCount) }

  /** After `n` releases: `n` bits fewer, and the allocated pages down to the reserve and no further. */
  function Given(m: Meter, n: nat): Meter {
    m.(bits := m.bits - n,
       pages := if m.pages <= m.reserved then m.pages else if m.pages - n < m.reserved then m.reserved else m.pages - n)
  }

  /** One release: the page is freed exactly while more than the reserve is allocated. */
  lemma ReleaseOne(c: Core, i: nat)
    requires i in c.bits && i in c.xa
    ensures MeterOf(Release(c, i)) == Given(MeterOf(c), 1)
  {
  }

  lemma {:induction false} RunSnoc(s: State, run: seq<Action>, a: Action)
    requires RunOk(s, run) && Enabled(Final(s, run), a)
    ensures RunOk(s, run + [a]) && Final(s, run + [a]) == Next(Final(s, run), a)
    decreases |run|
  {
    if run == [] {
      assert (run + [a])[1..] == [];
      assert RunOk(Next(s, a), []);
    } else {
      assert (run + [a])[1..] == run[1..] + [a];
      RunSnoc(Next(s, run[0]), run[1..], a);
    }
  }

  lemma ReachableStep(dataPages: nat, s: State, a: Action)
    requires Reachable(dataPages, s) && Enabled(s, a)
    ensures Reachable(dataPages, Next(s, a))
  {
    var run :| RunOk(Init(dataPages), run) && Final(Init(dataPages), run) == s;
    RunSnoc(Init(dataPages), run, a);
  }

  lemma FreeGives(dataPages: nat, s: State, a: Action)
    requires Reachable(dataPages, s) && a.Free? && Enabled(s, a)
    ensures Reachable(dataPages, Next(s, a)) && MeterOf(Next(s, a).core) == Given(MeterOf(s.core), 1)
  {
    ReachableStep(dataPages, s, a);
    ReachableInv(dataPages, s);
    HeldIsSet(s, a.id, 0);
    ReleaseOne(s.core, s.holders[a.id].pis[0]);
  }

  predicate OnlyFrees(run: seq<Action>) { run == [] || (run[0].Free? && OnlyFrees(run[1..])) }

  /** Requests give `|run|` indices back, in any order. */
  lemma {:induction false} FreesConverge(dataPages: nat, s: State, run: seq<Action>)
    requires Reachable(dataPages, s) && RunOk(s, run) && OnlyFrees(run)
    ensures MeterOf(Final(s, run).core) == Given(MeterOf(s.core), |run|)
    decreases |run|
  {
    if run != [] {
      FreeGives(dataPages, s, run[0]);
      FreesConverge(dataPages, Next(s, run[0]), run[1..]);
    }
  }

  lemma GivenAll(c: Core, d: Core, n: nat)
    requires MeterOf(d) == Given(MeterOf(c), n) && d.bits == {} && c.bits <= c.xa.Keys
    requires c.pageCount == |c.xa| && |c.xa.Keys - c.bits| <= c.reserved
    ensures d.pageCount == if c.pageCount <= c.reserved then c.pageCount else c.reserved
  {
    assert c.xa.Keys == (c.xa.Keys - c.bits) + c.bits;
  }

  /**
   With a fixed reserve, giving every index back ends with the cache cut down to the reserve, or left
   alone where it was smaller.
   */
  lemma ReleaseConvergesToReserve(dataPages: nat, before: seq<Action>, run: seq<Action>)
    requires RunOk(Init(dataPages), before) && forall k :: 0 <= k < |before| ==> !before[k].SetReserve?
    requires var s := Final(Init(dataPages), before);
             RunOk(s, run) && s.hands == map[] && OnlyFrees(run) && Final(s, run).core.bits == {}
    ensures var s := Final(Init(dataPages), before);
            Final(s, run).core.pageCount == if s.core.pageCount <= s.core.reserved then s.core.pageCount
                else s.core.reserved
  {
    var s := Final(Init(dataPages), before);
    InitInv(dataPages);
    RunInv(Init(dataPages), before);
    FixedReserve(Init(dataPages), before);
    assert Reachable(dataPages, s);
    FreesConverge(dataPages, s, run);
    GivenAll(s.core, Final(s, run).core, |run|);
  }
}
