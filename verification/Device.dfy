/**
 Life of one device after it was created and listed: the INTRANS handshake between adding and removing
 its disk, and the references that keep it alive. Netlink handlers are serialised; request timeouts
 remove the disk from any other thread.
 */
module Device {
  type Id = nat

  /** UBBD_DEV_KSTATUS_*, from the listing of the device on. */
  datatype Status = Prepared | Running | Removing

  /** ubbd_add_disk_fn: queued; past the status check (INTRANS set); after add_disk; refused by the check. */
  datatype AddPc = NoAdd | Queued | Calling | Called(ok: bool) | Refused

  /** ubbd_dev_remove_disk: waiting for INTRANS to clear; after the status write. */
  datatype RemovePc = Waiting | Decided(wasRunning: bool)

  /** The netlink handler, from its lookup to its put. */
  datatype HandlerPc = NoHandler | Looked | InRemoval | Unlisted | Done

  datatype State = State(
    status: Status, intrans: bool, add: AddPc, removers: map<Id, RemovePc>,
    adds: nat, dels: nat,           // successful add_disk and del_gendisk calls
    freed: bool,                    // ubbd_free_disk ran
    listed: bool, handler: HandlerPc,
    opens: nat, vmas: nat, debugfs: nat,
    kref: int, destroyed: nat,
    broken: bool                    // add_disk or del_gendisk was called on a freed disk
  )

  datatype Action =
    | Lookup | AskAddDisk | AskRemoveDisk(force: bool) | RemovalReturned | RemoveDev | PutInitial | HandlerPut
    | AddCheck | AddCall(ok: bool) | AddFinish
    | Timeout(id: Id) | RemoveDecide(id: Id) | RemoveReturn(id: Id)
    | Open | Release | Mmap | VmaOpen | VmaClose | DebugfsOpen | DebugfsRelease

  /** ubbd_dev_add_dev has just listed the device. */
  function Init(): State {
    State(Prepared, false, NoAdd, map[], 0, 0, false, true, NoHandler, 0, 0, 0, 1, 0, false)
  }

  /** The disk is registered with the block layer. */
  predicate DiskLive(s: State) { s.dels < s.adds }

  predicate Enabled(s: State, a: Action) {
    match a
    case Lookup => s.handler == NoHandler && s.listed
    case AskAddDisk => s.handler == Looked && s.add == NoAdd
    case AskRemoveDisk(force) => s.handler == Looked && 0 !in s.removers
    case RemovalReturned => s.handler == InRemoval && 0 !in s.removers
    case RemoveDev => s.handler == Looked && !s.intrans
    case PutInitial => s.handler == Unlisted
    case HandlerPut => s.handler == Done
    case AddCheck => s.add == Queued && !s.intrans
    case AddCall(_) => s.add == Calling
    case AddFinish => s.add == Refused || s.add.Called?
    case Timeout(id) => DiskLive(s) && id != 0 && id !in s.removers
    case RemoveDecide(id) => id in s.removers && s.removers[id] == Waiting && !s.intrans
    case RemoveReturn(id) => id in s.removers && s.removers[id].Decided?
    case Open => DiskLive(s)
    case Release => 0 < s.opens
    case Mmap => 0 < s.kref
    case VmaOpen => 0 < s.vmas
    case VmaClose => 0 < s.vmas
    case DebugfsOpen => 0 < s.kref
    case DebugfsRelease => 0 < s.debugfs
  }

  function Get(s: State): State { s.(kref := s.kref + 1) }

  /** kref_put: the holder that brings the count to zero destroys the device. */
  function Put(s: State): State {
    s.(kref := s.kref - 1, destroyed := if s.kref - 1 == 0 then s.destroyed + 1 else s.destroyed)
  }

  function Next(s: State, a: Action): State
    requires Enabled(s, a)
  {
    match a
    case Lookup => Get(s).(handler := Looked)
    case AskAddDisk => if s.status == Prepared then Get(s).(add := Queued, handler := Done) else s.(handler := Done)
    case AskRemoveDisk(force) =>
      if !force && s.opens > 0 then s.(handler := Done)
      else s.(handler := InRemoval, removers := s.removers[0 := Waiting])
    case RemovalReturned => s.(handler := Done)
    case RemoveDev =>
      if s.status == Running then s.(handler := Done)
      else s.(listed := false, freed := true, handler := Unlisted)
    case PutInitial => Put(s).(handler := Done)
    case HandlerPut => Put(s).(handler := NoHandler)
    case AddCheck => if s.status == Prepared then s.(intrans := true, add := Calling) else s.(add := Refused)
    case AddCall(ok) => s.(add := Called(ok), adds := if ok then s.adds + 1 else s.adds, broken := s.broken || s.freed)
    case AddFinish => Put(s).(intrans := false, status := if s.add == Called(true) then Running else s.status,
        add := NoAdd)
    case Timeout(id) => s.(removers := s.removers[id := Waiting])
    case RemoveDecide(id) => s.(removers := s.removers[id := Decided(s.status == Running)], status := Removing)
    case RemoveReturn(id) =>
      var del := s.removers[id].wasRunning;
      s.(removers := s.removers - {id}, dels := if del then s.dels + 1 else s.dels,
         broken := s.broken || (del && s.freed))
    case Open => Get(s).(opens := s.opens + 1)
    case Release => Put(s).(opens := s.opens - 1)
    case Mmap => Get(s).(vmas := s.vmas + 1)
    case VmaOpen => Get(s).(vmas := s.vmas + 1)
    case VmaClose => Put(s).(vmas := s.vmas - 1)
    case DebugfsOpen => Get(s).(debugfs := s.debugfs + 1)
    case DebugfsRelease => Put(s).(debugfs := s.debugfs - 1)
  }

  // ---------------------------------------------------------------- the handshake

  /** A removal that saw the disk running and has not deleted it yet. */
  predicate Deleting(s: State, id: Id) { id in s.removers && s.removers[id] == Decided(true) }

  ghost predicate Handshake(s: State) {
    && (s.intrans <==> s.add == Calling || s.add.Called?)
    && (s.intrans ==> s.status == Prepared)
    && s.adds <= 1 && s.dels <= s.adds
    && (s.status == Prepared ==> s.dels == 0 && (s.adds == 1 <==> s.add == Called(true)))
    && (s.status == Running ==> s.adds == 1 && s.dels == 0)
    && (s.status == Removing && DiskLive(s) ==> exists id :: Deleting(s, id))
    && (forall id :: Deleting(s, id) ==> s.status == Removing && DiskLive(s))
    && (forall id, id' :: Deleting(s, id) && Deleting(s, id') ==> id == id')
  }

  /** Who is about to delete the disk: only a removal's two steps change that. */
  lemma DeletingStep(s: State, a: Action)
    requires Enabled(s, a)
    ensures forall k :: Deleting(Next(s, a), k) <==>
              || (Deleting(s, k) && a != RemoveReturn(k))
              || (a == RemoveDecide(k) && s.status == Running)
  {
    var t := Next(s, a);
    match a
    case RemoveDecide(id) => forall k ensures Deleting(t, k) <==> Deleting(s, k) || (k == id && s.status == Running) { }
    case RemoveReturn(id) => forall k ensures Deleting(t, k) <==> Deleting(s, k) && k != id { }
    case _ => forall k ensures Deleting(t, k) <==> Deleting(s, k) { }
  }

  lemma HandshakeRemoval(s: State, a: Action)
    requires Handshake(s) && Enabled(s, a) && (a.RemoveDecide? || a.RemoveReturn?)
    ensures Handshake(Next(s, a))
  {
    var t := Next(s, a);
    DeletingStep(s, a);
    if a.RemoveDecide? {
      if s.status == Running { assert Deleting(t, a.id); }
    } else if s.removers[a.id].wasRunning {
      assert Deleting(s, a.id);
    }
    if DiskLive(t) && s.status == Removing {
      var id :| Deleting(s, id);
      assert Deleting(t, id);
    }
  }

  /** Whoever was to delete the disk still is. */
  lemma HandshakeKeeps(s: State, a: Action)
    requires Handshake(s) && Enabled(s, a) && !a.RemoveDecide? && !a.RemoveReturn?
    ensures s.status == Removing && DiskLive(s) ==> exists id :: Deleting(Next(s, a), id)
    ensures forall id :: Deleting(Next(s, a), id) <==> Deleting(s, id)
  {
    DeletingStep(s, a);
    if s.status == Removing && DiskLive(s) {
      var id :| Deleting(s, id);
      assert Deleting(Next(s, a), id);
    }
  }

  lemma HandshakeWork(s: State, a: Action)
    requires Handshake(s) && Enabled(s, a) && ByWork(a) && !a.RemoveDecide? && !a.RemoveReturn?
    ensures Handshake(Next(s, a))
  {
    HandshakeKeeps(s, a);
  }

  lemma HandshakeOther(s: State, a: Action)
    requires Handshake(s) && Enabled(s, a) && !ByWork(a)
    ensures Handshake(Next(s, a))
  {
    HandshakeKeeps(s, a);
  }

  lemma HandshakeStep(s: State, a: Action)
    requires Handshake(s) && Enabled(s, a)
    ensures Handshake(Next(s, a))
  {
    if a.RemoveDecide? || a.RemoveReturn? {
      HandshakeRemoval(s, a);
    } else if ByWork(a) {
      HandshakeWork(s, a);
    } else {
      HandshakeOther(s, a);
    }
  }

  // ---------------------------------------------------------------- references

  function One(b: bool): int { if b then 1 else 0 }

  /** Everyone who holds a reference. */
  function Holders(s: State): int {
    One(s.listed || s.handler == Unlisted) + One(s.handler != NoHandler) + One(s.add != NoAdd)
    + s.opens + s.vmas + s.debugfs
  }

  /** Destroyed once if nobody holds the device, and not at all otherwise. */
  predicate DestroyedIffUnheld(s: State) { s.destroyed == One(Holders(s) == 0) }

  /** The count is exact, and until its removal the device is whole. */
  ghost predicate Counted(s: State) {
    && s.kref == Holders(s)
    && (s.freed <==> !s.listed)
    && (s.handler == Looked || s.handler == InRemoval ==> s.listed)
    && (s.handler == Unlisted ==> !s.listed)
    && (s.listed ==> !s.broken && s.destroyed == 0)
  }

  /** The netlink handlers and the add work. */
  predicate ByHandler(a: Action) {
    a.Lookup? || a.AskAddDisk? || a.AskRemoveDisk? || a.RemovalReturned? || a.RemoveDev? || a.PutInitial?
        || a.HandlerPut?
  }

  predicate ByWork(a: Action) {
    a.AddCheck? || a.AddCall? || a.AddFinish? || a.Timeout? || a.RemoveDecide? || a.RemoveReturn?
  }

  lemma ReferencesHandler(s: State, a: Action)
    requires Counted(s) && Enabled(s, a) && ByHandler(a)
    ensures Counted(Next(s, a))
  {
  }

  lemma ReferencesWork(s: State, a: Action)
    requires Counted(s) && Enabled(s, a) && ByWork(a)
    ensures Counted(Next(s, a))
  {
  }

  lemma ReferencesUser(s: State, a: Action)
    requires Counted(s) && Enabled(s, a) && !ByHandler(a) && !ByWork(a)
    ensures Counted(Next(s, a))
  {
  }

  lemma ReferencesStep(s: State, a: Action)
    requires Counted(s) && Enabled(s, a)
    ensures Counted(Next(s, a))
  {
    if ByHandler(a) {
      ReferencesHandler(s, a);
    } else if ByWork(a) {
      ReferencesWork(s, a);
    } else {
      ReferencesUser(s, a);
    }
  }

  // ---------------------------------------------------------------- removing the device

  /** A disk that is registered, or may still be. */
  predicate DiskToCome(s: State) { DiskLive(s) || (s.add == Queued && s.status == Prepared) || s.intrans }

  /**
   ubbd_dev_remove_dev frees the disk on the strength of the status alone. That is unsafe when an add
   work is still to make its check, or a removal is still to call del_gendisk.
   */
  predicate Hazard(s: State) {
    s.status != Running && ((s.add == Queued && s.status == Prepared) || DiskLive(s))
  }

  /** No call on a freed disk, destroyed exactly while nobody holds on, and no disk without its device. */
  ghost predicate Secure(s: State) {
    && !s.broken
    && DestroyedIffUnheld(s)
    && (DiskToCome(s) ==> s.listed)
  }

  lemma ListedIsSecure(s: State)
    requires Counted(s) && s.listed
    ensures Secure(s)
  {
  }

  lemma SecureHandler(s: State, a: Action)
    requires Handshake(s) && Counted(s) && Secure(s) && Enabled(s, a) && ByHandler(a) && !(a.RemoveDev? && Hazard(s))
    ensures Secure(Next(s, a))
  {
  }

  lemma SecureWork(s: State, a: Action)
    requires Handshake(s) && Counted(s) && Secure(s) && Enabled(s, a) && ByWork(a)
    ensures Secure(Next(s, a))
  {
    if a.RemoveReturn? && s.removers[a.id].wasRunning { assert Deleting(s, a.id); }
  }

  lemma SecureUser(s: State, a: Action)
    requires Counted(s) && Secure(s) && Enabled(s, a) && !ByHandler(a) && !ByWork(a)
    ensures Secure(Next(s, a))
  {
  }

  lemma SecureStep(s: State, a: Action)
    requires Handshake(s) && Counted(s) && Secure(s) && Enabled(s, a) && !(a.RemoveDev? && Hazard(s))
    ensures Secure(Next(s, a))
  {
    if ByHandler(a) {
      SecureHandler(s, a);
    } else if ByWork(a) {
      SecureWork(s, a);
    } else {
      SecureUser(s, a);
    }
  }

  // ---------------------------------------------------------------- runs

  ghost predicate RunOk(s: State, run: seq<Action>)
    decreases |run|
  {
    run == [] || (Enabled(s, run[0]) && RunOk(Next(s, run[0]), run[1..]))
  }

  ghost function Final(s: State, run: seq<Action>): State
    requires RunOk(s, run)
    decreases |run|
  {
    if run == [] then s else Final(Next(s, run[0]), run[1..])
  }

  ghost predicate Reachable(s: State) {
    exists run :: RunOk(Init(), run) && Final(Init(), run) == s
  }

  lemma {:induction false} RunKeeps(s: State, run: seq<Action>)
    requires Handshake(s) && Counted(s) && RunOk(s, run)
    ensures Handshake(Final(s, run)) && Counted(Final(s, run))
    decreases |run|
  {
    if run != [] {
      HandshakeStep(s, run[0]);
      ReferencesStep(s, run[0]);
      RunKeeps(Next(s, run[0]), run[1..]);
    }
  }

  lemma ReachableKeeps(s: State)
    requires Reachable(s)
    ensures Handshake(s) && Counted(s)
  {
    var run :| RunOk(Init(), run) && Final(Init(), run) == s;
    RunKeeps(Init(), run);
  }

  /** Once unlisted the device cannot be removed again, so a secure one stays secure. */
  lemma {:induction false} SecureForever(s: State, run: seq<Action>)
    requires Handshake(s) && Counted(s) && Secure(s) && !s.listed && RunOk(s, run)
    ensures Secure(Final(s, run))
    decreases |run|
  {
    if run != [] {
      HandshakeStep(s, run[0]);
      ReferencesStep(s, run[0]);
      SecureStep(s, run[0]);
      SecureForever(Next(s, run[0]), run[1..]);
    }
  }

  // ---------------------------------------------------------------- results: the disk

  /** Over every run the disk is added at most once and deleted at most once, never before it was added. */
  lemma DiskDeletedAtMostOnce(s: State)
    requires Reachable(s)
    ensures s.dels <= s.adds <= 1
  {
    ReachableKeeps(s);
  }

  /**
   del_gendisk runs only on a disk whose add_disk succeeded and whose INTRANS has cleared, and by one removal
   only.
   */
  lemma DeleteFollowsAdd(s: State, id: Id)
    requires Reachable(s) && Enabled(s, RemoveReturn(id)) && s.removers[id].wasRunning
    ensures s.adds == 1 && s.dels == 0 && !s.intrans && s.status == Removing
    ensures forall k :: k in s.removers && s.removers[k] == Decided(true) ==> k == id
  {
    ReachableKeeps(s);
    assert Deleting(s, id);
    forall k | k in s.removers && s.removers[k] == Decided(true) ensures k == id { assert Deleting(s, k); }
  }

  lemma RemovedStep(s: State, a: Action)
    requires Handshake(s) && s.status == Removing && Enabled(s, a)
    ensures Next(s, a).adds == s.adds && Next(s, a).status == Removing
  {
  }

  /** From the status write of a removal on, no add work adds the disk and the status stays REMOVING. */
  lemma {:induction false} RemovedNeverAdds(s: State, run: seq<Action>)
    requires Handshake(s) && s.status == Removing && RunOk(s, run)
    ensures Final(s, run).adds == s.adds && Final(s, run).status == Removing
    decreases |run|
  {
    if run != [] {
      HandshakeStep(s, run[0]);
      RemovedStep(s, run[0]);
      RemovedNeverAdds(Next(s, run[0]), run[1..]);
    }
  }

  lemma RemovalIsFinal(s: State, run: seq<Action>)
    requires Reachable(s) && s.status == Removing && RunOk(s, run)
    ensures Final(s, run).adds == s.adds && Final(s, run).status == Removing
  {
    ReachableKeeps(s);
    RemovedNeverAdds(s, run);
  }

  lemma HazardBreaks(s: State)
    requires Handshake(s) && Enabled(s, RemoveDev) && Hazard(s)
    ensures exists run :: RunOk(Next(s, RemoveDev), run) && Final(Next(s, RemoveDev), run).broken
  {
    var t := Next(s, RemoveDev);
    if s.add == Queued && s.status == Prepared {
      var run := [AddCheck, AddCall(true)];
      var u := Next(t, AddCheck);
      assert run[1..] == [AddCall(true)] && run[1..][1..] == [];
      assert RunOk(Next(u, AddCall(true)), []) && RunOk(u, run[1..]) && RunOk(t, run);
      assert Final(u, run[1..]) == Next(u, AddCall(true));
      assert Final(t, run) == Next(u, AddCall(true));
      assert Final(t, run).broken;
    } else {
      var id :| Deleting(s, id);
      var run := [RemoveReturn(id)];
      assert run[1..] == [] && RunOk(Next(t, run[0]), []) && RunOk(t, run);
      assert Final(t, run) == Next(t, RemoveReturn(id));
      assert Final(t, run).broken;
    }
  }

  /**
   Removing the device is safe for the disk, whatever happens next, exactly when no add work is
   waiting for a PREPARED device and no removal still has a disk to delete.
   */
  lemma RemoveDevSafety(s: State)
    requires Reachable(s) && Enabled(s, RemoveDev) && s.status != Running
    ensures var t := Next(s, RemoveDev);
            (forall run :: RunOk(t, run) ==> !Final(t, run).broken) <==> !Hazard(s)
  {
    ReachableKeeps(s);
    if Hazard(s) {
      HazardBreaks(s);
    } else {
      CarefulRemoval(s);
    }
  }

  lemma CarefulRemoval(s: State)
    requires Handshake(s) && Counted(s) && Enabled(s, RemoveDev) && s.status != Running && !Hazard(s)
    ensures forall run :: RunOk(Next(s, RemoveDev), run) ==> Secure(Final(Next(s, RemoveDev), run))
  {
    var t := Next(s, RemoveDev);
    ListedIsSecure(s);
    HandshakeStep(s, RemoveDev);
    ReferencesStep(s, RemoveDev);
    SecureStep(s, RemoveDev);
    forall run | RunOk(t, run) ensures Secure(Final(t, run)) { SecureForever(t, run); }
  }

  // ---------------------------------------------------------------- results: references

  /** Over every run the count is exact, and a listed device is alive and was never destroyed. */
  lemma ReferencesConserved(s: State)
    requires Reachable(s)
    ensures s.kref == Holders(s) >= 0
    ensures s.listed ==> 1 <= s.kref && s.destroyed == 0
  {
    ReachableKeeps(s);
  }

  /** Some continuation gives a destroyed device a holder again, destroys it twice, or leaks it. */
  ghost predicate CanReopen(s: State) {
    exists run :: RunOk(s, run) && !DestroyedIffUnheld(Final(s, run))
  }

  lemma ReopenAfter(s: State, a: Action)
    requires Enabled(s, a) && CanReopen(Next(s, a))
    ensures CanReopen(s)
  {
    var rest :| RunOk(Next(s, a), rest) && !DestroyedIffUnheld(Final(Next(s, a), rest));
    var run := [a] + rest;
    assert run[1..] == rest;
    assert RunOk(s, run) && Final(s, run) == Final(Next(s, a), rest);
  }

  lemma ReopenNow(s: State)
    requires !DestroyedIffUnheld(s)
    ensures CanReopen(s)
  {
    assert RunOk(s, []) && Final(s, []) == s;
  }

  /** An unlisted device whose disk is registered: everyone lets go, and then the disk is opened. */
  lemma {:induction false} OpenAfterLast(s: State)
    requires Counted(s) && !s.listed && DiskLive(s) && s.add == NoAdd && s.handler == NoHandler
    ensures CanReopen(s)
    decreases s.opens + s.vmas + s.debugfs
  {
    var a := if s.opens > 0 then Release else if s.vmas > 0 then VmaClose else if s.debugfs > 0 then DebugfsRelease
        else Open;
    if a == Open {
      if s.destroyed == 1 { ReopenNow(Next(s, Open)); ReopenAfter(s, Open); } else { ReopenNow(s); }
    } else {
      ReferencesStep(s, a);
      OpenAfterLast(Next(s, a));
      ReopenAfter(s, a);
    }
  }

  /** The add work, if there is one, runs to its end and leaves the disk registered. */
  lemma {:induction false} OpenAfterAdd(s: State)
    requires Handshake(s) && Counted(s) && !s.listed && DiskToCome(s) && s.handler == NoHandler
             && s.add != Called(false)
    ensures CanReopen(s)
    decreases match s.add case Queued => 3 case Calling => 2 case Called(_) => 1 case Refused => 1 case NoAdd => 0
  {
    if s.add == NoAdd {
      OpenAfterLast(s);
    } else {
      var a := if s.add == Queued then AddCheck else if s.add == Calling then AddCall(true) else AddFinish;
      HandshakeStep(s, a);
      ReferencesStep(s, a);
      OpenAfterAdd(Next(s, a));
      ReopenAfter(s, a);
    }
  }

  lemma HazardReopens(s: State)
    requires Handshake(s) && Counted(s) && Enabled(s, RemoveDev) && Hazard(s)
    ensures CanReopen(Next(s, RemoveDev))
  {
    var t := Next(s, RemoveDev);
    var u := Next(t, PutInitial);
    HandshakeStep(s, RemoveDev);
    HandshakeStep(t, PutInitial);
    HandshakeStep(u, HandlerPut);
    ReferencesStep(s, RemoveDev);
    ReferencesStep(t, PutInitial);
    ReferencesStep(u, HandlerPut);
    OpenAfterAdd(Next(u, HandlerPut));
    ReopenAfter(u, HandlerPut);
    ReopenAfter(t, PutInitial);
  }

  /**
   After ubbd_dev_remove_dev every continuation destroys the device once, exactly when its last holder
   leaves, if and only if the removal was not hazardous.
   */
  lemma DestroyedOnceWhenUnheld(s: State)
    requires Reachable(s) && Enabled(s, RemoveDev) && s.status != Running
    ensures CanReopen(Next(s, RemoveDev)) <==> Hazard(s)
  {
    ReachableKeeps(s);
    if Hazard(s) { HazardReopens(s); } else { CarefulRemoval(s); }
  }

  lemma {:induction false} DestroyedForever(s: State, run: seq<Action>)
    requires Handshake(s) && Counted(s) && s.kref == 0 && !DiskLive(s) && RunOk(s, run)
    ensures Final(s, run).kref == 0 && Final(s, run).destroyed == s.destroyed
    decreases |run|
  {
    if run != [] {
      if run[0].RemoveReturn? && s.removers[run[0].id].wasRunning { assert Deleting(s, run[0].id); }
      HandshakeStep(s, run[0]);
      ReferencesStep(s, run[0]);
      DestroyedForever(Next(s, run[0]), run[1..]);
    }
  }

  /** A device nobody holds any more stays destroyed, whatever happens next, exactly when its disk is gone. */
  lemma DestructionIsFinal(s: State)
    requires Reachable(s) && Holders(s) == 0
    ensures (forall run :: RunOk(s, run) ==> Holders(Final(s, run)) == 0 && Final(s, run).destroyed == s.destroyed)
            <==> !DiskLive(s)
  {
    ReachableKeeps(s);
    forall run | RunOk(s, run) ensures Final(s, run).kref == Holders(Final(s, run)) { RunKeeps(s, run); }
    if DiskLive(s) {
      var run := [Open];
      assert run[1..] == [] && RunOk(Next(s, Open), []) && RunOk(s, run);
      assert Final(s, run) == Next(s, Open);
      assert Final(s, run).kref == Holders(Final(s, run));
    } else {
      forall run | RunOk(s, run)
          ensures Final(s, run).kref == 0 && Final(s, run).destroyed == s.destroyed { DestroyedForever(s, run); }
    }
  }

  // ---------------------------------------------------------------- results: asking for removal

  /** No open handle is closed, nothing times out and nobody forces the removal. */
  predicate Unforced(a: Action) { !a.Release? && !a.Timeout? && a != AskRemoveDisk(true) }

  predicate UnforcedRun(run: seq<Action>) { run == [] || (Unforced(run[0]) && UnforcedRun(run[1..])) }

  /** The disk is in use and nobody is removing it. */
  predicate InUse(s: State) { s.opens > 0 && s.removers == map[] && s.status != Removing }

  lemma InUseStep(s: State, a: Action)
    requires InUse(s) && Enabled(s, a) && Unforced(a)
    ensures InUse(Next(s, a)) && Next(s, a).dels == s.dels
  {
  }

  /** An open disk survives every unforced removal, however often it is asked for. */
  lemma {:induction false} UnforcedSparesOpenDisk(s: State, run: seq<Action>)
    requires InUse(s) && RunOk(s, run) && UnforcedRun(run)
    ensures InUse(Final(s, run)) && Final(s, run).dels == s.dels
    decreases |run|
  {
    if run != [] {
      InUseStep(s, run[0]);
      UnforcedSparesOpenDisk(Next(s, run[0]), run[1..]);
    }
  }

  /** The removal waits only for an add work to finish. */
  lemma {:induction false} RemovalProceeds(s: State, id: Id) returns (run: seq<Action>)
    requires Handshake(s) && id in s.removers && s.removers[id] == Waiting
    ensures RunOk(s, run) && Final(s, run).status == Removing && UnforcedRun(run)
    decreases if s.add == Calling then 2 else if s.add.Called? then 1 else 0
  {
    var a := if !s.intrans then RemoveDecide(id) else if s.add == Calling then AddCall(true) else AddFinish;
    var t := Next(s, a);
    var rest := [];
    if s.intrans {
      HandshakeStep(s, a);
      rest := RemovalProceeds(t, id);
    }
    run := [a] + rest;
    assert run[1..] == rest && RunOk(t, rest);
  }

  /** Some continuation in which nobody closes the disk, forces the removal or times out leads to REMOVING. */
  ghost predicate LeadsToRemoval(s: State) {
    exists run :: RunOk(s, run) && UnforcedRun(run) && Final(s, run).status == Removing
  }

  /**
   Asked to remove a disk nobody is removing, the driver goes ahead if and only if it is forced or the disk
   is not open: -EBUSY exactly for an unforced removal of an open disk.
   */
  lemma RemovalGoesAheadUnlessBusy(s: State, force: bool)
    requires Reachable(s) && Enabled(s, AskRemoveDisk(force)) && s.removers == map[] && s.status != Removing
    ensures LeadsToRemoval(Next(s, AskRemoveDisk(force))) <==> force || s.opens == 0
  {
    ReachableKeeps(s);
    var t := Next(s, AskRemoveDisk(force));
    HandshakeStep(s, AskRemoveDisk(force));
    if force || s.opens == 0 {
      var run := RemovalProceeds(t, 0);
    } else {
      forall run | RunOk(t, run) && UnforcedRun(run)
          ensures Final(t, run).status != Removing { UnforcedSparesOpenDisk(t, run); }
    }
  }

  /** A forced removal goes ahead in every reachable state in which it can be asked for. */
  lemma ForcedRemovalGoesAhead(s: State)
    requires Reachable(s) && Enabled(s, AskRemoveDisk(true))
    ensures LeadsToRemoval(Next(s, AskRemoveDisk(true)))
  {
    ReachableKeeps(s);
    HandshakeStep(s, AskRemoveDisk(true));
    var run := RemovalProceeds(Next(s, AskRemoveDisk(true)), 0);
  }

  lemma AddProceeds(s: State) returns (run: seq<Action>)
    requires s.add == Queued && s.status == Prepared && !s.intrans
    ensures RunOk(s, run) && Final(s, run).status == Running
  {
    run := [AddCheck, AddCall(true), AddFinish];
    var s1 := Next(s, AddCheck);
    var s2 := Next(s1, AddCall(true));
    var s3 := Next(s2, AddFinish);
    assert run[1..] == [AddCall(true), AddFinish] && run[1..][1..] == [AddFinish] && run[1..][1..][1..] == [];
    assert RunOk(s3, []) && RunOk(s2, run[1..][1..]) && RunOk(s1, run[1..]);
    assert Final(s2, run[1..][1..]) == s3 && Final(s1, run[1..]) == s3;
  }

  /** Asked to add a disk that is not running, the driver can get it running if and only if the device is PREPARED. */
  lemma AddTakesEffect(s: State)
    requires Reachable(s) && Enabled(s, AskAddDisk) && s.status != Running
    ensures var t := Next(s, AskAddDisk);
            (exists run :: RunOk(t, run) && Final(t, run).status == Running) <==> s.status == Prepared
  {
    ReachableKeeps(s);
    var t := Next(s, AskAddDisk);
    HandshakeStep(s, AskAddDisk);
    if s.status == Prepared {
      var run := AddProceeds(t);
    } else {
      forall run | RunOk(t, run) ensures Final(t, run).status == Removing { RemovedNeverAdds(t, run); }
    }
  }

  // ---------------------------------------------------------------- results: removing the device

  /** Some continuation destroys the device. */
  ghost predicate CanBeDestroyed(s: State) {
    exists run :: RunOk(s, run) && Final(s, run).destroyed > s.destroyed
  }

  lemma DestroyAfter(s: State, a: Action)
    requires Enabled(s, a) && Next(s, a).destroyed == s.destroyed && CanBeDestroyed(Next(s, a))
    ensures CanBeDestroyed(s)
  {
    var rest :| RunOk(Next(s, a), rest) && Final(Next(s, a), rest).destroyed > Next(s, a).destroyed;
    var run := [a] + rest;
    assert run[1..] == rest;
    assert RunOk(s, run) && Final(s, run) == Final(Next(s, a), rest);
  }

  lemma DestroyNow(s: State, a: Action)
    requires Enabled(s, a) && Next(s, a).destroyed > s.destroyed
    ensures CanBeDestroyed(s)
  {
    var run := [a];
    assert run[1..] == [] && RunOk(Next(s, a), []) && RunOk(s, run);
    assert Final(s, run) == Next(s, a);
  }

  /** What a holder does next to let go. */
  function LetGo(s: State): Action {
    if s.handler == Unlisted then PutInitial
    else if s.handler == Done then HandlerPut
    else if s.opens > 0 then Release
    else if s.vmas > 0 then VmaClose
    else if s.debugfs > 0 then DebugfsRelease
    else if s.add == Queued && !s.intrans then AddCheck
    else if s.add == Calling then AddCall(false)
    else AddFinish
  }

  function Left(s: State): nat {
    s.opens + s.vmas + s.debugfs
    + (match s.add case NoAdd => 0 case Queued => 3 case Calling => 2 case Called(_) => 1 case Refused => 1)
    + (match s.handler case NoHandler => 0 case Done => 1 case Unlisted => 2 case InRemoval => 0 case Looked => 0)
  }

  lemma SomeoneLetsGo(s: State)
    requires Handshake(s) && Counted(s) && !s.listed && s.kref > 0
    ensures Enabled(s, LetGo(s))
    ensures var t := Next(s, LetGo(s));
            && !t.listed && (t.destroyed > s.destroyed
               || (t.destroyed == s.destroyed && t.kref > 0 && Left(t) < Left(s)))
  {
  }

  /** No reference is leaked: once removed, a device that is still held can be destroyed. */
  lemma {:induction false} HoldersCanLetGo(s: State)
    requires Handshake(s) && Counted(s) && !s.listed && s.kref > 0
    ensures CanBeDestroyed(s)
    decreases Left(s)
  {
    var a := LetGo(s);
    SomeoneLetsGo(s);
    if Next(s, a).destroyed > s.destroyed {
      DestroyNow(s, a);
    } else {
      HandshakeStep(s, a);
      ReferencesStep(s, a);
      HoldersCanLetGo(Next(s, a));
      DestroyAfter(s, a);
    }
  }

  /**
   Asked to remove the device, the driver unlists it and leads to its destruction if and only if its disk
   is not running; a running device stays as it is.
   */
  lemma RemoveDevTakesEffect(s: State)
    requires Reachable(s) && Enabled(s, RemoveDev)
    ensures var t := Next(s, RemoveDev);
            if s.status == Running then t == s.(handler := Done) else !t.listed && CanBeDestroyed(t)
  {
    ReachableKeeps(s);
    if s.status != Running {
      HandshakeStep(s, RemoveDev);
      ReferencesStep(s, RemoveDev);
      HoldersCanLetGo(Next(s, RemoveDev));
    }
  }

  // ---------------------------------------------------------------- the hazard is real

  lemma {:induction false} RunSnoc(s: State, run: seq<Action>, a: Action)
    requires RunOk(s, run) && Enabled(Final(s, run), a)
    ensures RunOk(s, run + [a]) && Final(s, run + [a]) == Next(Final(s, run), a)
    decreases |run|
  {
    if run == [] {
      assert (run + [a])[1..] == [];
      assert RunOk(Next(s, a), []);
    } else {
      assert (run + [a])[1..] == run[1..] + [a];
      RunSnoc(Next(s, run[0]), run[1..], a);
    }
  }

  lemma Go(s: State, a: Action) returns (t: State)
    requires Reachable(s) && Enabled(s, a)
    ensures Reachable(t) && t == Next(s, a)
  {
    var run :| RunOk(Init(), run) && Final(Init(), run) == s;
    RunSnoc(Init(), run, a);
    t := Next(s, a);
  }

  /** One user asks for the disk, the next removes the device before the add work has run. */
  lemma HazardIsReachable() returns (s: State)
    ensures Reachable(s) && Enabled(s, RemoveDev) && Hazard(s)
    ensures s == Init().(handler := Looked, add := Queued, kref := 3)
  {
    s := Init();
    assert RunOk(s, []) && Final(s, []) == s;
    s := Go(s, Lookup);
    s := Go(s, AskAddDisk);
    s := Go(s, HandlerPut);
    s := Go(s, Lookup);
  }

  /** The device is destroyed, and then the add work registers its disk. */
  lemma DestroyedWithDiskIsReachable() returns (s: State)
    ensures Reachable(s) && s.destroyed == 1 && s.kref == 0 && s.opens == 0 && s.broken && DiskLive(s)
  {
    var s0 := HazardIsReachable();
    var s1 := Go(s0, RemoveDev);
    var s2 := Go(s1, PutInitial);
    var s3 := Go(s2, HandlerPut);
    assert s3 == Init().(add := Queued, kref := 1, listed := false, freed := true);
    var s4 := Go(s3, AddCheck);
    var s5 := Go(s4, AddCall(true));
    s := Go(s5, AddFinish);
  }

  /** Opening and closing that disk destroys the device a second time. */
  lemma DestroyedTwiceIsReachable() returns (s: State)
    ensures Reachable(s) && s.destroyed == 2
  {
    var s0 := DestroyedWithDiskIsReachable();
    var s1 := Go(s0, Open);
    s := Go(s1, Release);
  }
}
