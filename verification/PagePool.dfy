/**
 The data-page pool as the driver keeps it: a bitmap, a page cache and counters updated in place.
 `GetDataPages` is ubbd_get_data_pages for one worker running alone; its rounds are the passes of module Pool.
 */
module PagePool {
  import opened Pool

  ghost function SetBits(bitmap: seq<bool>): set<nat> {
    set i: nat | i < |bitmap| && bitmap[i]
  }

  ghost predicate NoFaults(alloc: nat -> Option<Page>, store: nat -> bool) {
    forall n :: alloc(n).Some? && store(n)
  }

  /** fresh_page counts as allocated although it is not in the cache yet. */
  function InHand(hand: Option<Page>): nat {
    if hand.Some? then 1 else 0
  }

  /** Claiming `pis`, one clear index at a time, turned `bits` into `now`. */
  ghost predicate Grown(bits: set<nat>, pis: seq<nat>, now: set<nat>) {
    && Distinct(pis) && Elements(pis) !! bits
    && now == bits + Elements(pis)
    && |now| == |bits| + |pis|
  }

  lemma GrownSnoc(bits: set<nat>, pis: seq<nat>, now: set<nat>, i: nat)
    requires Grown(bits, pis, now) && i !in now
    ensures Grown(bits, pis + [i], now + {i})
  {
    ElementsSnoc(pis, i);
    forall k | 0 <= k < |pis| ensures pis[k] != i { assert pis[k] in Elements(pis); }
  }

  // ---------------------------------------------------------------- giving indices back

  /** The pool after the indices from `k` on were released, the last one first. */
  ghost function ReleasedFrom(c: Core, pis: seq<nat>, k: nat): Core
    requires k <= |pis|
    decreases |pis| - k
  {
    if k == |pis| then c else Release(ReleasedFrom(c, pis, k + 1), pis[k])
  }

  /** Every set bit has a page, and what is mapped is what is cached, where the unmap can be trusted. */
  ghost predicate Faithful(c: Core) {
    && c.bits <= c.xa.Keys
    && forall i :: i in c.mapped && i < INT_PAGES ==> i in c.xa && c.mapped[i] == c.xa[i]
  }

  /** `d` caches what `c` does, except at some of `gone`. */
  ghost predicate Keeps(c: map<nat, Page>, d: map<nat, Page>, gone: set<nat>) {
    && (forall i :: i in d ==> i in c && d[i] == c[i])
    && (forall i :: i in c && i !in gone ==> i in d)
  }

  lemma ReleaseOneFacts(c: Core, i: nat)
    requires Faithful(c) && i in c.bits
    ensures var d := Release(c, i);
            && Faithful(d) && d.bits == c.bits - {i} && Keeps(c.xa, d.xa, {i})
            && MeterOf(d) == Given(MeterOf(c), 1) && d.pageCount - |d.xa| == c.pageCount - |c.xa|
  {
    UnmapHitsBelow(i);
    ReleaseOne(c, i);
    RemoveSize(c.xa, i);
  }

  lemma NotAgain(pis: seq<nat>, k: nat)
    requires Distinct(pis) && k < |pis|
    ensures pis[k] in Elements(pis) && pis[k] !in Elements(pis[k + 1..])
    ensures Elements(pis[k..]) == {pis[k]} + Elements(pis[k + 1..])
  {
    assert pis[k..] == [pis[k]] + pis[k + 1..];
    ElementsCons(pis[k], pis[k + 1..]);
  }

  lemma GivenMore(m: Meter, n: nat)
    ensures Given(Given(m, n), 1) == Given(m, n + 1)
  {
  }

  /**
   From `c` to `d` the indices `pis` became clear, the pages above the reserve were freed, and nothing else was
   lost.
   */
  ghost predicate GaveBack(c: Core, d: Core, pis: seq<nat>) {
    && Faithful(d) && d.bits == c.bits - Elements(pis) && Keeps(c.xa, d.xa, Elements(pis))
    && MeterOf(d) == Given(MeterOf(c), |pis|) && d.pageCount - |d.xa| == c.pageCount - |c.xa|
  }

  lemma GaveOneMore(c: Core, m: Core, i: nat, rest: seq<nat>, all: seq<nat>)
    requires GaveBack(c, m, rest) && i in m.bits && Elements(all) == {i} + Elements(rest) && |all| == |rest| + 1
    ensures GaveBack(c, Release(m, i), all)
  {
    ReleaseOneFacts(m, i);
    GivenMore(MeterOf(c), |rest|);
  }

  lemma {:induction false} ReleasedFacts(c: Core, pis: seq<nat>, k: nat)
    requires Faithful(c) && Distinct(pis) && Elements(pis) <= c.bits && k <= |pis|
    ensures GaveBack(c, ReleasedFrom(c, pis, k), pis[k..])
    decreases |pis| - k
  {
    if k == |pis| {
      assert Elements(pis[k..]) == {};
    } else {
      ReleasedFacts(c, pis, k + 1);
      NotAgain(pis, k);
      GaveOneMore(c, ReleasedFrom(c, pis, k + 1), pis[k], pis[k + 1..], pis[k..]);
    }
  }

  // ---------------------------------------------------------------- claiming indices

  /** `d` caches what `c` does, and besides only at `new`. */
  ghost predicate Extends(c: map<nat, Page>, d: map<nat, Page>, fresh_: set<nat>) {
    && (forall i :: i in c ==> i in d && d[i] == c[i])
    && (forall i :: i in d ==> i in c || i in fresh_)
  }

  lemma ExtendsSize(c: map<nat, Page>, d: map<nat, Page>, pis: seq<nat>)
    requires Distinct(pis) && Extends(c, d, Elements(pis))
    ensures |d| <= |c| + |pis|
  {
    SubsetSize(d.Keys, c.Keys + Elements(pis));
    ElementsSize(pis);
    assert |c.Keys + Elements(pis)| <= |c.Keys| + |Elements(pis)|;
    assert |d.Keys| == |d| && |c.Keys| == |c|;
  }

  lemma TakenFacts(c: Core, hand: Option<Page>, storeOk: bool)
    requires Claim(c, hand, storeOk).Got?
    ensures var r := Claim(c, hand, storeOk);
            var d := Taken(c, hand, r);
            && r.index !in c.bits && d.bits == c.bits + {r.index} && Extends(c.xa, d.xa, {r.index})
            && |d.xa| == |c.xa| + (if r.usedHand then 1 else 0) && (r.usedHand ==> hand.Some?)
  {
    var r := Claim(c, hand, storeOk);
    if r.usedHand { InsertSize(c.xa, r.index, hand.value); }
  }

  /** What is claimed besides leaves the mappings as true as they were. */
  lemma FaithfulGrows(c: Core, m: Core, pis: seq<nat>)
    requires Faithful(c) && Extends(c.xa, m.xa, Elements(pis)) && m.mapped == c.mapped && m.bits <= m.xa.Keys
    ensures Faithful(m)
  {
  }

  /** A call that claimed `pis` and gave them back. */
  lemma FailedCall(c: Core, m: Core, d: Core, pis: seq<nat>)
    requires c.bits <= c.xa.Keys && Grown(c.bits, pis, m.bits) && Extends(c.xa, m.xa, Elements(pis))
    requires m.reserved == c.reserved && m.pageCount - |m.xa| == c.pageCount - |c.xa| && GaveBack(m, d, pis)
    ensures d.bits == c.bits && d.pageCount - |d.xa| == c.pageCount - |c.xa|
    ensures d.pageCount <= d.reserved || d.pageCount <= c.pageCount
    ensures forall i :: i in c.bits ==> i in d.xa && d.xa[i] == c.xa[i]
  {
    ExtendsSize(c.xa, m.xa, pis);
  }

  class DataPool {
    const bitmap: array<bool>
    var xa: map<nat, Page>
    var pageCount: int
    var reserved: nat
    var mapped: map<nat, Page>

    ghost function Contents(): Core
      reads this, bitmap
    {
      Core(bitmap.Length, reserved, SetBits(bitmap[..]), xa, pageCount, mapped)
    }

    ghost predicate Valid()
      reads this, bitmap
    {
      && SetBits(bitmap[..]) <= xa.Keys
      && (forall i :: i in xa ==> i < bitmap.Length)
    }

    /** ubbd_queue_create: no bit set, nothing cached, three quarters of the pages reserved. */
    constructor (dataPages: nat)
      ensures Valid() && fresh(bitmap)
      ensures Contents() == Pool.Init(dataPages).core
    {
      bitmap := new bool[dataPages](_ => false);
      xa, pageCount, mapped := map[], 0, map[];
      reserved := Reserve(75, dataPages);
      new;
      assert SetBits(bitmap[..]) == {};
    }

    method FindFirstZero() returns (i: nat)
      ensures i == FirstZero(SetBits(bitmap[..]), 0, bitmap.Length)
    {
      i := 0;
      while i < bitmap.Length && bitmap[i]
        invariant i <= bitmap.Length
        invariant FirstZero(SetBits(bitmap[..]), 0, bitmap.Length) == FirstZero(SetBits(bitmap[..]), i, bitmap.Length)
      {
        i := i + 1;
      }
    }

    /** ubbd_release_page. */
    method ReleasePage(i: nat)
      requires Valid() && i < bitmap.Length
      modifies this`xa, this`pageCount, this`mapped, bitmap
      ensures Valid()
      ensures Contents() == Release(old(Contents()), i)
    {
      bitmap[i] := false;
      assert SetBits(bitmap[..]) == old(SetBits(bitmap[..])) - {i};
      if pageCount > reserved && i in xa {
        mapped := Unmap(mapped, i);
        xa := xa - {i};
        pageCount := pageCount - 1;
      }
    }

    /** The pages_mutex section of one pass through `again`. */
    method TryClaim(hand: Option<Page>, storeOk: bool) returns (r: Claimed)
      requires Valid()
      modifies this`xa, bitmap
      ensures Valid()
      ensures r == Claim(old(Contents()), hand, storeOk)
      ensures Contents() == Taken(old(Contents()), hand, r)
    {
      var i := FindFirstZero();
      if i == bitmap.Length { return Full; }
      r := Got(i, false);
      if i !in xa {
        if hand.None? { return NoPage; }
        if !storeOk { return StoreFailed; }
        xa := xa[i := hand.value];
        r := Got(i, true);
      }
      bitmap[i] := true;
      assert SetBits(bitmap[..]) == old(SetBits(bitmap[..])) + {i};
    }

    /** The loop of the error path: the last index first. */
    method ReleaseAll(pis: seq<nat>)
      requires Valid() && forall k :: 0 <= k < |pis| ==> pis[k] < bitmap.Length
      modifies this`xa, this`pageCount, this`mapped, bitmap
      ensures Valid() && Contents() == ReleasedFrom(old(Contents()), pis, 0)
    {
      var k := |pis|;
      while k > 0
        invariant 0 <= k <= |pis| && Valid() && Contents() == ReleasedFrom(old(Contents()), pis, k)
      {
        k := k - 1;
        ReleasePage(pis[k]);
      }
    }

    /** The error path of ubbd_get_data_pages: give the claimed indices back, and the pages above the reserve. */
    method RollBack(pis: seq<nat>)
      requires Valid() && Distinct(pis) && Elements(pis) <= SetBits(bitmap[..]) && Faithful(Contents())
      modifies this`xa, this`pageCount, this`mapped, bitmap
      ensures Valid() && GaveBack(old(Contents()), Contents(), pis)
    {
      ghost var was := Contents();
      forall k | 0 <= k < |pis| ensures pis[k] < bitmap.Length { assert pis[k] in Elements(pis); }
      ReleaseAll(pis);
      ReleasedFacts(was, pis, 0);
      assert pis[0..] == pis;
    }

    /**
     One segment: pass through `again` until an index is claimed or the call fails. A second pass
     always has a page in hand, which is why the loop ends.
     */
    method ClaimOne(held: Option<Page>, alloc: nat -> Option<Page>, store: nat -> bool, n: nat)
      returns (ok: bool, i: nat, hand: Option<Page>)
      requires Valid()
      modifies this`xa, this`pageCount, bitmap
      ensures Valid()
      ensures if ok then i !in old(SetBits(bitmap[..])) && SetBits(bitmap[..]) == old(SetBits(bitmap[..])) + {i}
              else SetBits(bitmap[..]) == old(SetBits(bitmap[..]))
      ensures Extends(old(xa), xa, if ok then {i} else {})
      ensures pageCount - |xa| - InHand(hand) == old(pageCount - |xa| - InHand(held))
      ensures NoFaults(alloc, store) && !ok ==> |SetBits(bitmap[..])| == bitmap.Length
    {
      hand := held;
      ghost var bits := SetBits(bitmap[..]);
      BelowSize(bits, bitmap.Length);
      while true
        invariant Valid() && xa == old(xa) && SetBits(bitmap[..]) == bits
        invariant pageCount - InHand(hand) == old(pageCount - InHand(held))
        decreases hand.None?
      {
        if Claim(Contents(), hand, store(n)).Got? { TakenFacts(Contents(), hand, store(n)); }
        var r := TryClaim(hand, store(n));
        match r {
          case Full => return false, 0, hand;
          case StoreFailed => return false, 0, hand;
          case NoPage =>
            hand := alloc(n);
            if hand.None? { return false, 0, hand; }
            pageCount := pageCount + 1;
          case Got(j, used) =>
            if used { hand := None; }
            return true, j, hand;
        }
      }
    }

    /** The segment loop of ubbd_get_data_pages; `alloc` and `store` say which allocations and insertions succeed. */
    method ClaimAll(want: nat, alloc: nat -> Option<Page>, store: nat -> bool)
        returns (ok: bool, pis: seq<nat>, hand: Option<Page>)
      requires Valid()
      modifies this`xa, this`pageCount, bitmap
      ensures Valid() && Grown(old(SetBits(bitmap[..])), pis, SetBits(bitmap[..]))
      ensures if ok then |pis| == want else |pis| < want
      ensures Extends(old(xa), xa, Elements(pis))
      ensures pageCount - |xa| - InHand(hand) == old(pageCount - |xa|)
      ensures NoFaults(alloc, store) && !ok ==> |SetBits(bitmap[..])| == bitmap.Length
    {
      pis, ok, hand := [], true, None;
      while |pis| < want
        invariant Valid() && |pis| <= want && ok
        invariant Grown(old(SetBits(bitmap[..])), pis, SetBits(bitmap[..])) && Extends(old(xa), xa, Elements(pis))
        invariant pageCount - |xa| - InHand(hand) == old(pageCount - |xa|)
      {
        ghost var now := SetBits(bitmap[..]);
        var i;
        ok, i, hand := ClaimOne(hand, alloc, store, |pis|);
        if !ok { return; }
        GrownSnoc(old(SetBits(bitmap[..])), pis, now, i);
        ElementsSnoc(pis, i);
        pis := pis + [i];
      }
    }

    /**
     ubbd_get_data_pages for a worker running alone: all or nothing. A failed call leaves no page allocated
     above the reserve that was not before, and takes no page from an index that is in use.
     */
    method GetDataPages(want: nat, alloc: nat -> Option<Page>, store: nat -> bool) returns (ok: bool, pis: seq<nat>)
      requires Valid() && Faithful(Contents())
      modifies this`xa, this`pageCount, this`mapped, bitmap
      ensures Valid() && Faithful(Contents())
      ensures ok ==> |pis| == want && Distinct(pis) && Elements(pis) !! old(SetBits(bitmap[..]))
      ensures SetBits(bitmap[..]) == if ok then old(SetBits(bitmap[..])) + Elements(pis) else old(SetBits(bitmap[..]))
      ensures pageCount - |xa| == old(pageCount - |xa|)
      ensures NoFaults(alloc, store) ==> (ok <==> |old(SetBits(bitmap[..]))| + want <= bitmap.Length)
      ensures ok ==> Extends(old(xa), xa, Elements(pis)) && mapped == old(mapped)
      ensures !ok ==> pageCount <= reserved || pageCount <= old(pageCount)
      ensures !ok ==> forall i :: i in old(SetBits(bitmap[..])) ==> i in xa && xa[i] == old(xa[i])
    {
      var hand;
      ghost var was := Contents();
      ok, pis, hand := ClaimAll(want, alloc, store);
      BelowSize(SetBits(bitmap[..]), bitmap.Length);
      if hand.Some? { pageCount := pageCount - 1; }
      ghost var claimed := Contents();
      FaithfulGrows(was, claimed, pis);
      if !ok {
        RollBack(pis);
        FailedCall(was, claimed, Contents(), pis);
        pis := [];
      }
    }
  }
}
