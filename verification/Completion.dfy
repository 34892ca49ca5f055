/**
 The completion ring, with any number of completers. The backend writes entries at the head and checks
 nothing; a completer moves the tail past an entry under a lock, drops the lock and reads the entry
 afterwards, so the backend may have written over it by then.
 */
module Completion {
  import Ring

  datatype Ce = Ce(tid: nat, result: int)

  type Id = nat

  /**
   `pushed` is every completion in the order the backend wrote them, `taken` how many the tail has passed,
   and `hands` the entry each completer has taken and not finished; `live` are the tids published and not ended.
   */
  datatype State = State(n: nat, slots: seq<Ce>, pushed: seq<Ce>, taken: nat, hands: map<Id, nat>, live: set<nat>,
      next: nat)

  datatype Action = Publish | Push(ce: Ce) | Take(c: Id) | End(c: Id)

  function Init(n: nat): State {
    State(n, seq(n, _ => Ce(0, 0)), [], 0, map[], {}, 1)
  }

  /** The backend completes each published request at most once. */
  ghost predicate Enabled(s: State, a: Action) {
    match a
    case Publish => true
    case Push(ce) => ce.tid in s.live && forall j :: 0 <= j < |s.pushed| ==> s.pushed[j].tid != ce.tid
    case Take(c) => c !in s.hands
    case End(c) => c in s.hands
  }

  /** get_complete_entry finds the ring empty when head and tail coincide. */
  predicate LooksEmpty(s: State)
    requires 0 < s.n
  {
    |s.pushed| % s.n == s.taken % s.n
  }

  /** What completer `c` reads through its pointer. */
  function ReadBy(s: State, c: Id): Ce
    requires 0 < s.n == |s.slots| && c in s.hands
  {
    s.slots[s.hands[c] % s.n]
  }

  function Next(s: State, a: Action): State
    requires 0 < s.n == |s.slots| && (a.End? ==> a.c in s.hands)
  {
    match a
    case Publish => s.(live := s.live + {s.next}, next := s.next + 1)
    case Push(ce) => s.(slots := s.slots[|s.pushed| % s.n := ce], pushed := s.pushed + [ce])
    case Take(c) => if LooksEmpty(s) then s else s.(hands := s.hands[c := s.taken], taken := s.taken + 1)
    case End(c) => s.(live := s.live - {ReadBy(s, c).tid}, hands := s.hands - {c})
  }

  // ---------------------------------------------------------------- slots

  /** Two entries less than a ring apart are in different slots. */
  lemma SlotsDiffer(n: nat, a: nat, b: nat)
    requires a < b < a + n
    ensures a % n != b % n
  {
    var d := b / n - a / n;
    assert b - a == n * d + (b % n - a % n);
    Ring.MulBounds(n, d);
  }

  /** Entries whole rings apart share their slot. */
  lemma SlotRepeats(n: nat, k: nat, q: nat)
    requires 0 < n
    ensures (k + n * q) % n == k % n
  {
    assert k + n * q == n * (k / n + q) + k % n;
    Ring.ModUnique(n, k / n + q, k % n, k + n * q);
  }

  function NextSlot(n: nat, i: nat): nat { if i + 1 == n then 0 else i + 1 }

  lemma NextSlotIsNext(n: nat, j: nat)
    requires 0 < n
    ensures NextSlot(n, j % n) == (j + 1) % n
  {
    var q, r := j / n, j % n;
    assert j == n * q + r;
    if r + 1 == n {
      assert j + 1 == n * (q + 1);
      Ring.ModUnique(n, q + 1, 0, j + 1);
    } else {
      Ring.ModUnique(n, q, r + 1, j + 1);
    }
  }

  /** UPDATE_COMPR_TAIL on byte offsets is one slot forward. */
  lemma TailMacroIsNextSlot(ceSize: nat, n: nat, i: nat)
    requires 0 < ceSize && i < n && 2 * (ceSize * n) <= Ring.U32_LIMIT
    ensures 0 < ceSize * n
    ensures Ring.U32((ceSize * i) % (ceSize * n) + ceSize) % (ceSize * n) == ceSize * NextSlot(n, i)
  {
    var size := ceSize * n;
    Ring.MulBounds(ceSize, n - i);
    assert ceSize * (n - i) == size - ceSize * i;
    Ring.ModUnique(size, 0, ceSize * i, ceSize * i);
    assert ceSize * i + ceSize == ceSize * (i + 1);
    if i + 1 == n {
      Ring.ModUnique(size, 1, 0, ceSize * (i + 1));
    } else {
      Ring.MulBounds(ceSize, n - (i + 1));
      assert ceSize * (n - (i + 1)) == size - ceSize * (i + 1);
      Ring.ModUnique(size, 0, ceSize * (i + 1), ceSize * (i + 1));
    }
  }

  /** Head and tail coincide exactly when the completions waiting fill the ring a whole number of times. */
  lemma FullLooksEmpty(n: nat, taken: nat, pushed: nat)
    requires 0 < n && taken <= pushed
    ensures pushed % n == taken % n <==> (pushed - taken) % n == 0
  {
    var q, r := (pushed - taken) / n, (pushed - taken) % n;
    assert pushed == (taken + r) + n * q;
    SlotRepeats(n, taken + r, q);
    if r != 0 { SlotsDiffer(n, taken, taken + r); }
  }

  // ---------------------------------------------------------------- every run

  ghost predicate DistinctTids(ces: seq<Ce>) {
    forall i, j :: 0 <= i < j < |ces| ==> ces[i].tid != ces[j].tid
  }

  /** The last `n` completions are in their slots. */
  ghost predicate Window(s: State)
    requires 0 < s.n == |s.slots|
  {
    forall j :: 0 <= j < |s.pushed| && |s.pushed| <= j + s.n ==> s.slots[j % s.n] == s.pushed[j]
  }

  ghost predicate Inv(s: State) {
    && 0 < s.n == |s.slots|
    && Window(s)
    && DistinctTids(s.pushed)
    && s.taken <= |s.pushed|
    && (forall c :: c in s.hands ==> s.hands[c] < s.taken)
  }

  lemma WindowPush(s: State, ce: Ce)
    requires Inv(s)
    ensures Window(Next(s, Push(ce)))
  {
    var t := Next(s, Push(ce));
    forall j | 0 <= j < |t.pushed| && |t.pushed| <= j + t.n ensures t.slots[j % t.n] == t.pushed[j] {
      if j < |s.pushed| { SlotsDiffer(s.n, j, |s.pushed|); }
    }
  }

  lemma StepInv(s: State, a: Action)
    requires Inv(s) && Enabled(s, a)
    ensures Inv(Next(s, a))
  {
    if a.Push? { WindowPush(s, a.ce); }
  }

  ghost predicate RunOk(s: State, run: seq<Action>)
    requires 0 < s.n == |s.slots|
    decreases |run|
  {
    run == [] || (Enabled(s, run[0]) && RunOk(Next(s, run[0]), run[1..]))
  }

  ghost function Final(s: State, run: seq<Action>): (t: State)
    requires 0 < s.n == |s.slots| && RunOk(s, run)
    ensures 0 < t.n == |t.slots|
    decreases |run|
  {
    if run == [] then s else Final(Next(s, run[0]), run[1..])
  }

  lemma {:induction false} RunInv(s: State, run: seq<Action>)
    requires Inv(s) && RunOk(s, run)
    ensures Inv(Final(s, run)) && Final(s, run).n == s.n
    decreases |run|
  {
    if run != [] {
      StepInv(s, run[0]);
      RunInv(Next(s, run[0]), run[1..]);
    }
  }

  ghost predicate Reachable(n: nat, s: State) {
    0 < n && exists run :: RunOk(Init(n), run) && Final(Init(n), run) == s
  }

  lemma ReachableInv(n: nat, s: State)
    requires Reachable(n, s)
    ensures Inv(s) && s.n == n
  {
    var run :| RunOk(Init(n), run) && Final(Init(n), run) == s;
    RunInv(Init(n), run);
  }

  lemma {:induction false} RunSnoc(s: State, run: seq<Action>, a: Action)
    requires 0 < s.n == |s.slots| && RunOk(s, run) && Enabled(Final(s, run), a)
    ensures RunOk(s, run + [a]) && Final(s, run + [a]) == Next(Final(s, run), a)
    decreases |run|
  {
    if run == [] {
      assert (run + [a])[1..] == [];
      assert RunOk(Next(s, a), []);
    } else {
      assert (run + [a])[1..] == run[1..] + [a];
      RunSnoc(Next(s, run[0]), run[1..], a);
    }
  }

  lemma ReachableStep(n: nat, s: State, a: Action)
    requires Reachable(n, s) && Enabled(s, a)
    ensures 0 < s.n == |s.slots| && Reachable(n, Next(s, a))
  {
    ReachableInv(n, s);
    var run :| RunOk(Init(n), run) && Final(Init(n), run) == s;
    RunSnoc(Init(n), run, a);
  }

  // ---------------------------------------------------------------- when an entry is intact

  /** Every slot an entry was taken from holds one of the last `n` completions. */
  lemma LatestOf(s: State, k: nat) returns (j: nat)
    requires Inv(s) && k < |s.pushed|
    ensures k <= j < |s.pushed| <= j + s.n && s.slots[k % s.n] == s.pushed[j]
  {
    var q := (|s.pushed| - 1 - k) / s.n;
    j := k + s.n * q;
    assert |s.pushed| - 1 - k == s.n * q + (|s.pushed| - 1 - k) % s.n;
    SlotRepeats(s.n, k, q);
  }

  /** Completer `c` reads the completion it took. */
  ghost predicate Intact(s: State, c: Id) {
    0 < s.n == |s.slots| && c in s.hands && s.hands[c] < |s.pushed| && ReadBy(s, c) == s.pushed[s.hands[c]]
  }

  /**
   With any number of completers, what a completer reads is the completion it took exactly as long as the
   backend has not gone once around the ring since.
   */
  lemma TakenIsIntact(n: nat, s: State, c: Id)
    requires Reachable(n, s) && c in s.hands
    ensures Intact(s, c) <==> |s.pushed| <= s.hands[c] + n
  {
    ReachableInv(n, s);
    var j := LatestOf(s, s.hands[c]);
  }

  /** The completion of tid `t` has been written over, and the request is still published. */
  ghost predicate Overwritten(s: State, k: nat, t: nat) {
    k + s.n < |s.pushed| && s.pushed[k].tid == t && t in s.live
  }

  lemma LostStep(s: State, k: nat, t: nat, a: Action)
    requires Inv(s) && Overwritten(s, k, t) && Enabled(s, a)
    ensures Overwritten(Next(s, a), k, t)
  {
    if a.End? { LostNotRead(s, k, a.c); }
  }

  lemma LostNotRead(s: State, k: nat, c: Id)
    requires Inv(s) && k + s.n < |s.pushed| && c in s.hands
    ensures ReadBy(s, c).tid != s.pushed[k].tid
  {
    var j := LatestOf(s, s.hands[c]);
  }

  /** A completion that was written over is lost: no continuation ends its request. */
  lemma {:induction false} LostForever(s: State, k: nat, t: nat, run: seq<Action>)
    requires Inv(s) && Overwritten(s, k, t) && RunOk(s, run)
    ensures t in Final(s, run).live
    decreases |run|
  {
    if run != [] {
      StepInv(s, run[0]);
      LostStep(s, k, t, run[0]);
      LostForever(Next(s, run[0]), k, t, run[1..]);
    }
  }

  // ---------------------------------------------------------------- one completer

  ghost function Tids(ces: seq<Ce>): set<nat> {
    set k: nat | k < |ces| :: ces[k].tid
  }

  /** Completions with distinct tids are no more than the requests they complete. */
  lemma {:induction false} NoMoreThanLive(ces: seq<Ce>, live: set<nat>)
    requires DistinctTids(ces) && Tids(ces) <= live
    ensures |ces| <= |live|
    decreases |ces|
  {
    if ces != [] {
      var last := ces[|ces| - 1].tid;
      var rest := ces[..|ces| - 1];
      assert last in Tids(ces);
      forall t | t in Tids(rest) ensures t in live - {last} {
        var k: nat :| k < |rest| && rest[k].tid == t;
        assert ces[k].tid in Tids(ces);
      }
      NoMoreThanLive(rest, live - {last});
    }
  }

  /** How many completions a sole completer has finished with. */
  function Ended(s: State): nat { if s.hands == map[] || s.taken == 0 then s.taken else s.taken - 1 }

  /** Nobody takes an entry while another is in hand, and fewer requests are out than the ring has slots. */
  ghost predicate Modest(s: State, a: Action) {
    (a.Take? ==> s.hands == map[]) && |s.live| < s.n
  }

  ghost predicate ModestRun(s: State, run: seq<Action>)
    requires 0 < s.n == |s.slots|
    decreases |run|
  {
    |s.live| < s.n && (run == [] || (Enabled(s, run[0]) && Modest(s, run[0]) && ModestRun(Next(s, run[0]), run[1..])))
  }

  /** The entry in hand is the last one taken, and no completion from it on has been used up. */
  ghost predicate Sole(s: State) {
    && Inv(s)
    && (forall c :: c in s.hands ==> s.hands[c] + 1 == s.taken)
    && (forall j :: Ended(s) <= j < |s.pushed| ==> s.pushed[j].tid in s.live)
  }

  lemma SoleIsBounded(s: State)
    requires Sole(s) && |s.live| < s.n
    ensures |s.pushed| < Ended(s) + s.n
  {
    var waiting := s.pushed[Ended(s)..];
    forall t | t in Tids(waiting) ensures t in s.live {
      var k: nat :| k < |waiting| && waiting[k].tid == t;
      assert waiting[k] == s.pushed[Ended(s) + k];
    }
    NoMoreThanLive(waiting, s.live);
  }

  /** Ending what the sole completer has in hand. */
  lemma SoleEnd(s: State, c: Id)
    requires Sole(s) && |s.live| < s.n && c in s.hands && s.hands == map[c := s.hands[c]]
    ensures ReadBy(s, c) == s.pushed[Ended(s)] && Sole(Next(s, End(c)))
  {
    SoleIsBounded(s);
    assert (s.hands - {c}) == map[];
  }

  /** At most one completer has an entry in hand. */
  ghost predicate Single(s: State) { forall c, d :: c in s.hands && d in s.hands ==> c == d }

  lemma SoleStep(s: State, a: Action)
    requires Sole(s) && Single(s) && Enabled(s, a) && Modest(s, a)
    ensures Sole(Next(s, a)) && Single(Next(s, a))
  {
    StepInv(s, a);
    if a.End? {
      assert s.hands == map[a.c := s.hands[a.c]];
      SoleEnd(s, a.c);
    }
  }

  lemma {:induction false} ModestRunIsRun(s: State, run: seq<Action>)
    requires Sole(s) && Single(s) && ModestRun(s, run)
    ensures RunOk(s, run) && Sole(Final(s, run)) && Single(Final(s, run)) && |Final(s, run).live| < Final(s, run).n
    decreases |run|
  {
    if run != [] {
      SoleStep(s, run[0]);
      ModestRunIsRun(Next(s, run[0]), run[1..]);
    }
  }

  /**
   With one completer, and fewer requests published and unended than slots: the ring looks empty only
   when every completion was taken, the entry in hand is never written over, and completions are used
   once, in order.
   */
  lemma OneCompleterIsSafe(n: nat, run: seq<Action>)
    requires 0 < n && ModestRun(Init(n), run)
    ensures RunOk(Init(n), run)
    ensures var s := Final(Init(n), run); LooksEmpty(s) <==> s.taken == |s.pushed|
    ensures var s := Final(Init(n), run);
            forall c :: c in s.hands ==> 0 < s.taken <= |s.pushed| && ReadBy(s, c) == s.pushed[s.taken - 1]
                                         && s.pushed[s.taken - 1].tid in s.live
  {
    ModestRunIsRun(Init(n), run);
    var s := Final(Init(n), run);
    SoleIsBounded(s);
    FullLooksEmpty(s.n, s.taken, |s.pushed|);
    if s.taken < |s.pushed| { Ring.ModUnique(s.n, 0, |s.pushed| - s.taken, |s.pushed| - s.taken); }
    forall c | c in s.hands
      ensures 0 < s.taken <= |s.pushed| && ReadBy(s, c) == s.pushed[s.taken - 1] && s.pushed[s.taken - 1].tid in s.live
    {
      assert s.hands == map[c := s.hands[c]];
      SoleEnd(s, c);
    }
  }

  // ---------------------------------------------------------------- two completers

  /** The run goes from `s` to `t` with never more than `m` requests out. */
  ghost predicate FewLead(s: State, run: seq<Action>, t: State, m: nat)
    decreases |run|
  {
    && 0 < s.n == |s.slots| && |s.live| <= m
    && if run == [] then s == t else Enabled(s, run[0]) && FewLead(Next(s, run[0]), run[1..], t, m)
  }

  lemma {:induction false} FewSnoc(s: State, run: seq<Action>, t: State, a: Action, m: nat)
    requires FewLead(s, run, t, m) && 0 < t.n == |t.slots| && Enabled(t, a) && |Next(t, a).live| <= m
    ensures FewLead(s, run + [a], Next(t, a), m)
    decreases |run|
  {
    if run == [] {
      assert (run + [a])[1..] == [];
      assert FewLead(Next(t, a), [], Next(t, a), m);
    } else {
      assert (run + [a])[1..] == run[1..] + [a];
      FewSnoc(Next(s, run[0]), run[1..], t, a, m);
    }
  }

  lemma {:induction false} FewIsRun(s: State, run: seq<Action>, t: State, m: nat)
    requires 0 < s.n == |s.slots| && FewLead(s, run, t, m)
    ensures RunOk(s, run) && Final(s, run) == t
    decreases |run|
  {
    if run != [] { FewIsRun(Next(s, run[0]), run[1..], t, m); }
  }

  /** Reached on a ring of three slots with never more than two requests out. */
  ghost predicate Reached(s: State) {
    exists run :: FewLead(Init(3), run, s, 2)
  }

  lemma ReachedIsReachable(s: State)
    requires Reached(s)
    ensures Reachable(3, s)
  {
    var run :| FewLead(Init(3), run, s, 2);
    FewIsRun(Init(3), run, s, 2);
  }

  lemma Go(s: State, a: Action) returns (t: State)
    requires Reached(s) && Enabled(s, a) && 0 < s.n == |s.slots| && |Next(s, a).live| <= 2
    ensures Reached(t) && t == Next(s, a)
  {
    var run :| FewLead(Init(3), run, s, 2);
    FewSnoc(Init(3), run, s, a, 2);
    t := Next(s, a);
  }

  function Done(tid: nat): Ce { Ce(tid, 0) }

  /** Completer 0 has taken the completion of tid 1 and stalls. */
  lemma OneStalled() returns (s: State)
    ensures Reached(s) && s == State(3, [Done(1), Ce(0, 0), Ce(0, 0)], [Done(1)], 1, map[0 := 0], {1}, 2)
  {
    s := Init(3);
    assert FewLead(s, [], s, 2);
    s := Go(s, Publish);
    s := Go(s, Push(Done(1)));
    assert s.slots == [Done(1), Ce(0, 0), Ce(0, 0)] && s.pushed == [Done(1)];
    s := Go(s, Take(0));
  }

  /** After `k` completions, with completer 0 stalled at the first. */
  ghost predicate Stalled(s: State, k: nat) {
    && Reached(s) && 1 <= k <= 2 && s.n == 3 == |s.slots| && |s.pushed| == k && s.taken == k
    && s.live == {1} && s.next == k + 1 && s.hands == map[0 := 0]
    && forall j :: 0 <= j < k ==> s.pushed[j].tid <= k
  }

  /** One more request is published and completed by the backend. */
  lemma AnotherSent(s: State, k: nat) returns (t: State)
    requires Stalled(s, k)
    ensures Reached(t)
    ensures t == s.(slots := s.slots[k := Done(k + 1)], pushed := s.pushed + [Done(k + 1)], live := {1, k + 1},
            next := k + 2)
  {
    var s1 := Go(s, Publish);
    assert s1.live == {1, k + 1};
    t := Go(s1, Push(Done(k + 1)));
  }

  /** Completer 1 carries out a whole completion meanwhile. */
  lemma AnotherDone(s: State, k: nat) returns (t: State)
    requires Stalled(s, k)
    ensures Reached(t)
    ensures t == s.(slots := s.slots[k := Done(k + 1)], pushed := s.pushed + [Done(k + 1)], taken := k + 1,
            next := k + 2)
  {
    var s1 := AnotherSent(s, k);
    var s2 := Go(s1, Take(1));
    assert s2.hands == map[0 := 0, 1 := k] && ReadBy(s2, 1) == Done(k + 1);
    t := Go(s2, End(1));
    assert t.live == {1} && t.hands == map[0 := 0];
  }

  /**
   The fourth completion goes into the slot completer 0 is about to read: it reads tid 4, and the completion
   of tid 1 is lost although three slots were enough for the two requests out at any time.
   */
  lemma TwoCompletersLoseOne() returns (s: State)
    ensures Reached(s) && Reachable(3, s) && 0 in s.hands && Overwritten(s, s.hands[0], 1)
    ensures 0 < s.n == |s.slots| && ReadBy(s, 0) == Done(4)
  {
    var s0 := OneStalled();
    var s1 := AnotherDone(s0, 1);
    var s2 := AnotherDone(s1, 2);
    var s3 := Go(s2, Publish);
    s := Go(s3, Push(Done(4)));
    ReachedIsReachable(s);
  }

  // ---------------------------------------------------------------- the ring in place

  class CompletionRing {
    const slots: array<Ce>
    var head: nat
    var tail: nat
    var at: map<Id, nat>          // the slot each completer's entry pointer points to
    ghost var view: State

    ghost predicate Valid()
      reads this, slots
    {
      && Reachable(slots.Length, view) && slots[..] == view.slots
      && head == |view.pushed| % slots.Length && tail == view.taken % slots.Length
      && at.Keys == view.hands.Keys && forall c :: c in at ==> at[c] == view.hands[c] % slots.Length
    }

    constructor (n: nat)
      requires 0 < n
      ensures Valid() && fresh(slots) && slots.Length == n && view == Init(n)
    {
      slots := new Ce[n](_ => Ce(0, 0));
      head, tail, at := 0, 0, map[];
      view := Init(n);
      new;
      assert slots[..] == view.slots;
      assert RunOk(Init(n), []) && Final(Init(n), []) == Init(n);
    }

    /** The backend completes a published request. It writes without looking at the tail. */
    method PushEntry(ce: Ce)
      requires Valid() && Enabled(view, Push(ce))
      modifies this`head, this`view, slots
      ensures Valid() && 0 < slots.Length == old(view).n == |old(view).slots| && view == Next(old(view), Push(ce))
      ensures forall c :: c in view.hands ==> (Intact(view, c) <==> |view.pushed| <= view.hands[c] + slots.Length)
    {
      ReachableInv(slots.Length, view);
      ReachableStep(slots.Length, view, Push(ce));
      NextSlotIsNext(slots.Length, |view.pushed|);
      slots[head] := ce;
      head := NextSlot(slots.Length, head);
      view := Next(view, Push(ce));
      forall c | c in view.hands ensures Intact(view, c) <==> |view.pushed| <= view.hands[c] + slots.Length {
        TakenIsIntact(slots.Length, view, c);
      }
    }

    /**
     The compr_lock section: the ring looks empty exactly when the completions waiting fill it a whole number
     of times.
     */
    method TakeEntry(c: Id) returns (got: bool)
      requires Valid() && c !in view.hands
      modifies this`tail, this`at, this`view
      ensures Valid() && 0 < slots.Length == old(view).n == |old(view).slots| && view == Next(old(view), Take(c))
      ensures old(view).taken <= |view.pushed|
      ensures got <==> (|view.pushed| - old(view).taken) % slots.Length != 0
      ensures if got then c in view.hands && view.hands[c] == old(view).taken else view == old(view)
    {
      ReachableInv(slots.Length, view);
      ReachableStep(slots.Length, view, Take(c));
      FullLooksEmpty(slots.Length, view.taken, |view.pushed|);
      NextSlotIsNext(slots.Length, view.taken);
      got := tail != head;
      if got {
        at := at[c := tail];
        tail := NextSlot(slots.Length, tail);
      }
      view := Next(view, Take(c));
    }

    /** A read through the entry pointer: the completion that was taken iff the backend has not been around since. */
    method ReadEntry(c: Id) returns (ce: Ce)
      requires Valid() && c in view.hands
      ensures 0 < view.n == |view.slots| && ce == ReadBy(view, c)
      ensures view.hands[c] < |view.pushed|
      ensures ce == view.pushed[view.hands[c]] <==> |view.pushed| <= view.hands[c] + slots.Length
    {
      ReachableInv(slots.Length, view);
      TakenIsIntact(slots.Length, view, c);
      ce := slots[at[c]];
    }

    /** The last read, and the end of the request it names. */
    method FinishEntry(c: Id) returns (ce: Ce)
      requires Valid() && c in view.hands
      modifies this`at, this`view
      ensures Valid() && 0 < slots.Length == old(view).n == |old(view).slots| && view == Next(old(view), End(c))
      ensures old(view).hands[c] < |view.pushed| && ce.tid !in view.live
      ensures ce == view.pushed[old(view).hands[c]] <==> |view.pushed| <= old(view).hands[c] + slots.Length
    {
      ReachableInv(slots.Length, view);
      ReachableStep(slots.Length, view, End(c));
      ce := ReadEntry(c);
      at := at - {c};
      view := Next(view, End(c));
    }
  }
}
