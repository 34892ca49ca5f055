/** What userspace has mapped, against the page cache: releases, page faults, and the `int` product of the unmap. */
module Mappings {
  import opened Pool

  // ---------------------------------------------------------------- release against the fault handler

  function FaultIn(c: Core, indices: set<nat>): Core {
    c.(mapped := map i | i in c.mapped.Keys + (indices * c.xa.Keys) :: if i in indices
        && i in c.xa then c.xa[i] else c.mapped[i])
  }

  /**
   The fault handler takes no lock, so faults can fall between the unmap and the erase of a release.
   Mappings stay coherent exactly when none of those faults is on the index being released and the
   unmap hit its mapping, if it had one.
   */
  lemma ReleaseRacesFault(c: Core, i: nat, faults: set<nat>)
    requires i in c.xa && forall j :: j in c.mapped ==> j in c.xa && c.mapped[j] == c.xa[j]
    ensures var unmapped := c.(mapped := Unmap(c.mapped, i));
            var raced := FaultIn(unmapped, faults);
            var d := raced.(xa := raced.xa - {i});
            (forall j :: j in d.mapped ==> j in d.xa && d.mapped[j] == d.xa[j])
              <==> i !in faults && (i in c.mapped ==> i < INT_PAGES)
  {
    UnmapHitsBelow(i);
    var raced := FaultIn(c.(mapped := Unmap(c.mapped, i)), faults);
    var d := raced.(xa := raced.xa - {i});
    if i in faults || (i in c.mapped && i >= INT_PAGES) {
      assert i in d.mapped && i !in d.xa;
    }
  }

  // ---------------------------------------------------------------- mappings, in every run

  function Below(k: nat): (s: set<nat>)
    ensures forall i: nat :: i in s <==> i < k
  {
    if k == 0 then {} else Below(k - 1) + {k - 1}
  }

  /** Indices below `k` are lost, each with its own page, and the reserve is none. */
  function LostBelow(dataPages: nat, k: nat): State {
    State(Core(dataPages, 0, Below(k), map i | i in Below(k) :: i, k, map[]), map[], map[],
          map i | i in Below(k) :: Stranded, Reserve(75, dataPages))
  }

  /** Besides, request 0 is at work on index `k`. */
  function Claiming(dataPages: nat, k: nat, mode: Mode, passes: nat): State {
    LostBelow(dataPages, k).(holders := map[0 := Holder(1, [], mode, passes)])
  }

  /** It has page `k` in hand. */
  function WithPage(dataPages: nat, k: nat): State {
    var s := Claiming(dataPages, k, Filling, 1);
    s.(hands := map[0 := k], core := s.core.(pageCount := k + 1))
  }

  /** It holds index `k`. */
  function Holding(dataPages: nat, k: nat, mode: Mode): State {
    var s := LostBelow(dataPages, k + 1);
    s.(holders := map[0 := Holder(1, [k], mode, 0)], owner := s.owner[k := ByRequest(0)])
  }

  lemma FirstClear(n: nat, k: nat)
    requires k < n
    ensures FirstZero(Below(k), 0, n) == k
  {
    assert k !in Below(k);
  }

  lemma ClaimStart(n: nat, k: nat)
    requires k < n && Reachable(n, LostBelow(n, k))
    ensures Reachable(n, Claiming(n, k, NeedPage, 1))
  {
    FirstClear(n, k);
    ReachableStep(n, LostBelow(n, k), Begin(0, 1));
    var s := Claiming(n, k, Filling, 0);
    assert Next(LostBelow(n, k), Begin(0, 1)) == s;
    ReachableStep(n, s, Pass(0, true));
    assert Next(s, Pass(0, true)) == Claiming(n, k, NeedPage, 1);
  }

  lemma ClaimPage(n: nat, k: nat)
    requires k < n && Reachable(n, Claiming(n, k, NeedPage, 1))
    ensures Reachable(n, WithPage(n, k))
  {
    var s := Claiming(n, k, NeedPage, 1);
    assert Unused(s, k);
    ReachableStep(n, s, AllocPage(0, Some(k)));
    assert Next(s, AllocPage(0, Some(k))) == WithPage(n, k);
  }

  lemma ClaimStored(n: nat, k: nat)
    requires k < n
    ensures Enabled(WithPage(n, k), Pass(0, true))
    ensures Next(WithPage(n, k), Pass(0, true)) == Holding(n, k, Filling)
  {
    FirstClear(n, k);
    var t, h := Next(WithPage(n, k), Pass(0, true)), Holding(n, k, Filling);
    assert Claim(WithPage(n, k).core, Some(k), true) == Got(k, true);
    assert t.core.bits == h.core.bits && t.core.xa == h.core.xa;
    assert t.holders[0] == Holder(1, [k], Filling, 0) && t.holders == h.holders;
    assert t.owner == h.owner && t.hands == h.hands;
  }

  lemma ClaimEnd(n: nat, k: nat)
    requires k < n && Reachable(n, WithPage(n, k))
    ensures Reachable(n, Holding(n, k, Held))
  {
    ClaimStored(n, k);
    ReachableStep(n, WithPage(n, k), Pass(0, true));
    var s := Holding(n, k, Filling);
    ReachableStep(n, s, Settle(0));
    assert Next(s, Settle(0)) == Holding(n, k, Held);
  }

  lemma Claims(n: nat, k: nat)
    requires k < n && Reachable(n, LostBelow(n, k))
    ensures Reachable(n, Holding(n, k, Held))
  {
    ClaimStart(n, k);
    ClaimPage(n, k);
    ClaimEnd(n, k);
  }

  lemma NoneLost(n: nat)
    ensures Reachable(n, LostBelow(n, 0))
  {
    assert RunOk(Init(n), []) && Final(Init(n), []) == Init(n);
    ReachableStep(n, Init(n), SetReserve(0));
    assert Next(Init(n), SetReserve(0)) == LostBelow(n, 0);
  }

  lemma LosesOne(n: nat, k: nat)
    requires k < n && Reachable(n, Holding(n, k, Held))
    ensures Reachable(n, LostBelow(n, k + 1))
  {
    var s := Holding(n, k, Held);
    ReachableStep(n, s, Strand(0));
    assert Next(s, Strand(0)).owner == LostBelow(n, k + 1).owner;
    assert Next(s, Strand(0)) == LostBelow(n, k + 1);
  }

  /** One request after the other loses its page. */
  lemma {:induction false} LosesBelow(n: nat, k: nat)
    requires k <= n
    ensures Reachable(n, LostBelow(n, k))
  {
    if k == 0 {
      NoneLost(n);
    } else {
      LosesBelow(n, k - 1);
      Claims(n, k - 1);
      LosesOne(n, k - 1);
    }
  }

  /** Index `i` is claimed, mapped by userspace and released. */
  lemma StaleMapping(n: nat, i: nat) returns (s: State)
    requires INT_PAGES <= i < n
    ensures Reachable(n, s) && !CoherentAt(s, i)
  {
    LosesBelow(n, i);
    Claims(n, i);
    var s0 := Holding(n, i, Held);
    ReachableStep(n, s0, Fault(i));
    var s1 := Next(s0, Fault(i));
    ReachableStep(n, s1, Free(0));
    UnmapHitsBelow(i);
    s := Next(s1, Free(0));
  }

  /**
   Whatever is mapped at index `i` is the page the cache holds there, in every reachable state, exactly
   when the `int` product of the release does not overflow at `i`.
   */
  lemma MappingIsCoherent(dataPages: nat, i: nat)
    requires i < dataPages
    ensures (forall s :: Reachable(dataPages, s) ==> CoherentAt(s, i)) <==> i < INT_PAGES
  {
    if i < INT_PAGES {
      forall s | Reachable(dataPages, s) ensures CoherentAt(s, i) { ReachableInv(dataPages, s); }
    } else {
      var s := StaleMapping(dataPages, i);
    }
  }

  /** So all mappings of a pool are coherent in every reachable state exactly for at most 2^19 data pages. */
  lemma MappingsAreCoherent(dataPages: nat)
    ensures (forall s, i :: Reachable(dataPages, s) && i in s.core.mapped ==> CoherentAt(s, i))
            <==> dataPages <= INT_PAGES
  {
    if dataPages <= INT_PAGES {
      forall s, i | Reachable(dataPages, s) && i in s.core.mapped ensures CoherentAt(s, i) {
        ReachableInv(dataPages, s);
        PoolSize(dataPages, s);
      }
    } else {
      var s := StaleMapping(dataPages, INT_PAGES);
      assert INT_PAGES in s.core.mapped;
    }
  }

  lemma {:induction false} RunSize(s: State, run: seq<Action>)
    requires RunOk(s, run)
    ensures Final(s, run).core.dataPages == s.core.dataPages
    decreases |run|
  {
    if run != [] { RunSize(Next(s, run[0]), run[1..]); }
  }

  lemma PoolSize(dataPages: nat, s: State)
    requires Reachable(dataPages, s)
    ensures s.core.dataPages == dataPages
  {
    var run :| RunOk(Init(dataPages), run) && Final(Init(dataPages), run) == s;
    RunSize(Init(dataPages), run);
  }
}
