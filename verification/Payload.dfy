/**
 Payload of a request: which data page each segment uses, where userspace sees it, and the copy loops.
 A bio chain is a sequence of bios, each a sequence of segments; segments of one request may share
 or overlap host pages.
 */
module Payload {
  import SubmitRing
  import Pool

  const PAGE: nat := Pool.PAGE
  const INLINE_PI_MAX: nat := 4

  type Byte = nat
  type Pages = map<nat, seq<Byte>>

  /** A bio_vec: a stretch of one host page. */
  datatype Segment = Segment(page: nat, offset: nat, len: nat) {
    predicate Ok() { offset + len <= PAGE }
    predicate Covers(p: nat, x: nat) { p == page && offset <= x < offset + len }
  }

  type Bio = seq<Segment>

  function Flatten(chain: seq<Bio>): seq<Segment> {
    if chain == [] then [] else chain[0] + Flatten(chain[1..])
  }

  ghost predicate Fits(segs: seq<Segment>, host: Pages) {
    forall k :: 0 <= k < |segs| ==> segs[k].Ok() && segs[k].page in host && |host[segs[k].page]| == PAGE
  }

  ghost predicate Backed(pis: seq<nat>, area: Pages) {
    forall k :: 0 <= k < |pis| ==> pis[k] in area && |area[pis[k]]| == PAGE
  }

  /** memcpy of a segment's range from one page to another. */
  function CopyRange(dst: seq<Byte>, src: seq<Byte>, s: Segment): (r: seq<Byte>)
    requires |dst| == |src| == PAGE && s.Ok()
    ensures |r| == PAGE
    ensures forall x :: 0 <= x < PAGE ==> r[x] == if s.offset <= x < s.offset + s.len then src[x] else dst[x]
  {
    dst[..s.offset] + src[s.offset..s.offset + s.len] + dst[s.offset + s.len..]
  }

  /** copy_data_to_ubbdreq, after the first `n` segments. */
  ghost function WriteFirst(area: Pages, host: Pages, segs: seq<Segment>, pis: seq<nat>, n: nat): (r: Pages)
    requires n <= |segs| == |pis| && Fits(segs, host) && Backed(pis, area)
    ensures r.Keys == area.Keys && Backed(pis, r)
  {
    if n == 0 then area else
    var before := WriteFirst(area, host, segs, pis, n - 1);
    before[pis[n - 1] := CopyRange(before[pis[n - 1]], host[segs[n - 1].page], segs[n - 1])]
  }

  ghost function WriteAll(area: Pages, host: Pages, segs: seq<Segment>, pis: seq<nat>): (r: Pages)
    requires |segs| == |pis| && Fits(segs, host) && Backed(pis, area)
    ensures Backed(pis, r)
  {
    WriteFirst(area, host, segs, pis, |segs|)
  }

  /** copy_data_from_ubbdreq, after the first `n` segments. */
  ghost function ReadFirst(host: Pages, area: Pages, segs: seq<Segment>, pis: seq<nat>, n: nat): (r: Pages)
    requires n <= |segs| == |pis| && Fits(segs, host) && Backed(pis, area)
    ensures r.Keys == host.Keys && forall i :: i in host && |host[i]| == PAGE ==> |r[i]| == PAGE
  {
    if n == 0 then host else
    var before := ReadFirst(host, area, segs, pis, n - 1);
    before[segs[n - 1].page := CopyRange(before[segs[n - 1].page], area[pis[n - 1]], segs[n - 1])]
  }

  ghost function ReadAll(host: Pages, area: Pages, segs: seq<Segment>, pis: seq<nat>): (r: Pages)
    requires |segs| == |pis| && Fits(segs, host) && Backed(pis, area)
    ensures r.Keys == host.Keys && forall i :: i in host && |host[i]| == PAGE ==> |r[i]| == PAGE
  {
    ReadFirst(host, area, segs, pis, |segs|)
  }

  /** Pages of other indices are left alone. */
  lemma {:induction false} WriteLeavesOthers(area: Pages, host: Pages, segs: seq<Segment>, pis: seq<nat>, n: nat)
    requires n <= |segs| == |pis| && Fits(segs, host) && Backed(pis, area)
    ensures WriteFirst(area, host, segs, pis, n).Keys == area.Keys
    ensures forall i :: i in area && i !in pis ==> WriteFirst(area, host, segs, pis, n)[i] == area[i]
    decreases n
  {
    if n > 0 { WriteLeavesOthers(area, host, segs, pis, n - 1); }
  }

  /** Host pages no segment is on are left alone. */
  lemma {:induction false} ReadLeavesOthers(host: Pages, area: Pages, segs: seq<Segment>, pis: seq<nat>, n: nat)
    requires n <= |segs| == |pis| && Fits(segs, host) && Backed(pis, area)
    ensures ReadFirst(host, area, segs, pis, n).Keys == host.Keys
    ensures forall p :: p in host && OffPage(segs, p) ==> ReadFirst(host, area, segs, pis, n)[p] == host[p]
    decreases n
  {
    if n > 0 { ReadLeavesOthers(host, area, segs, pis, n - 1); }
  }

  ghost predicate OffPage(segs: seq<Segment>, p: nat) { forall k :: 0 <= k < |segs| ==> segs[k].page != p }

  /** With distinct indices, segment `k` ends up in its own page, in place, and nothing else changes there. */
  lemma WrittenInPlace(area: Pages, host: Pages, segs: seq<Segment>, pis: seq<nat>, k: nat)
    requires |segs| == |pis| && Fits(segs, host) && Backed(pis, area) && Pool.Distinct(pis) && k < |segs|
    ensures WriteAll(area, host, segs, pis)[pis[k]] == CopyRange(area[pis[k]], host[segs[k].page], segs[k])
  {
    PageAfter(area, host, segs, pis, k, |segs|);
  }

  /** The page of segment `k` changes when that segment is copied and at no other time. */
  lemma {:induction false} PageAfter(area: Pages, host: Pages, segs: seq<Segment>, pis: seq<nat>, k: nat, n: nat)
    requires n <= |segs| == |pis| && Fits(segs, host) && Backed(pis, area) && Pool.Distinct(pis) && k < |segs|
    ensures WriteFirst(area, host, segs, pis, n)[pis[k]]
         == if n <= k then area[pis[k]] else CopyRange(area[pis[k]], host[segs[k].page], segs[k])
    decreases n
  {
    if n > 0 {
      PageAfter(area, host, segs, pis, k, n - 1);
      assert n - 1 != k ==> pis[n - 1] != pis[k];
    }
  }

  /** One of the first `n` segments covers byte `x` of host page `p`. */
  ghost predicate Covered(segs: seq<Segment>, n: nat, p: nat, x: nat) {
    exists k :: 0 <= k < |segs| && k < n && segs[k].Covers(p, x)
  }

  /** The pages hold, in each segment's range, the bytes `was` had on the host. */
  ghost predicate Carries(area: Pages, pis: seq<nat>, segs: seq<Segment>, was: Pages)
    requires |segs| == |pis| && Fits(segs, was) && Backed(pis, area)
  {
    forall k, x :: 0 <= k < |segs| && segs[k].offset <= x < segs[k].offset + segs[k].len
        ==> area[pis[k]][x] == was[segs[k].page][x]
  }

  lemma WriteCarries(area: Pages, host: Pages, segs: seq<Segment>, pis: seq<nat>)
    requires |segs| == |pis| && Fits(segs, host) && Backed(pis, area) && Pool.Distinct(pis)
    ensures Carries(WriteAll(area, host, segs, pis), pis, segs, host)
  {
    forall k | 0 <= k < |segs|
      ensures WriteAll(area, host, segs, pis)[pis[k]] == CopyRange(area[pis[k]], host[segs[k].page], segs[k])
    {
      WrittenInPlace(area, host, segs, pis, k);
    }
  }

  /**
   Reading into a request of the same shape gives back exactly the bytes that were written, even when
   segments overlap on the host, and leaves every other host byte alone.
   */
  lemma {:induction false} ReadReturnsWritten(host: Pages, was: Pages, area: Pages, segs: seq<Segment>, pis: seq<nat>,
      n: nat, p: nat, x: nat)
    requires n <= |segs| == |pis| && Fits(segs, host) && Fits(segs, was) && Backed(pis, area)
             && Carries(area, pis, segs, was)
    requires p in host && |host[p]| == PAGE && x < PAGE
    ensures ReadFirst(host, area, segs, pis, n)[p][x] == if Covered(segs, n, p, x) then was[p][x] else host[p][x]
    decreases n
  {
    if n > 0 {
      assert Covered(segs, n, p, x) <==> Covered(segs, n - 1, p, x) || segs[n - 1].Covers(p, x);
      ReadReturnsWritten(host, was, area, segs, pis, n - 1, p, x);
    }
  }

  /** Write, then read back through the same indices: the round trip of a bio chain. */
  lemma PayloadRoundTrip(area: Pages, host: Pages, other: Pages, segs: seq<Segment>, pis: seq<nat>, k: nat, x: nat)
    requires |segs| == |pis| && Fits(segs, host) && Fits(segs, other) && Backed(pis, area) && Pool.Distinct(pis)
    requires k < |segs| && segs[k].offset <= x < segs[k].offset + segs[k].len
    ensures ReadAll(other, WriteAll(area, host, segs, pis), segs, pis)[segs[k].page][x] == host[segs[k].page][x]
  {
    WriteCarries(area, host, segs, pis);
    assert segs[k].Covers(segs[k].page, x);
    ReadReturnsWritten(other, host, WriteAll(area, host, segs, pis), segs, pis, |segs|, segs[k].page, x);
  }

  // ---------------------------------------------------------------- addresses

  /** ubbd_set_se_iov: where userspace finds segment `s` of a request that holds index `pi`. */
  function IovOf(dataOff: nat, pi: nat, s: Segment): SubmitRing.Iov {
    SubmitRing.Iov(pi * PAGE + dataOff + s.offset, s.len)
  }

  /** ubbd_vma_fault: the data page index for an address behind the rings. */
  function FaultIndex(dataOff: nat, addr: nat): nat {
    var offset := addr / PAGE * PAGE;
    if offset < dataOff then 0 else (offset - dataOff) / PAGE
  }

  /** Every byte of a segment's iov faults to the page the segment was copied to, at the byte it was copied to. */
  lemma IovFaultsToItsPage(dataOff: nat, pi: nat, s: Segment, j: nat)
    requires dataOff % PAGE == 0 && s.Ok() && j < s.len
    ensures var addr := IovOf(dataOff, pi, s).base + j;
            FaultIndex(dataOff, addr) == pi && addr % PAGE == s.offset + j && dataOff <= addr / PAGE * PAGE
  {
    var d := dataOff / PAGE;
    assert dataOff == d * PAGE;
    var addr := IovOf(dataOff, pi, s).base + j;
    assert addr == (pi + d) * PAGE + (s.offset + j);
    assert addr / PAGE == pi + d && addr % PAGE == s.offset + j;
  }

  /** What userspace reads at an address in the data area. */
  ghost function UserByte(area: Pages, dataOff: nat, addr: nat): Byte
    requires FaultIndex(dataOff, addr) in area && |area[FaultIndex(dataOff, addr)]| == PAGE
  {
    area[FaultIndex(dataOff, addr)][addr % PAGE]
  }

  /** A write request's bytes are exactly where its iovs point. */
  lemma WrittenAtIov(area: Pages, host: Pages, segs: seq<Segment>, pis: seq<nat>, dataOff: nat, k: nat, j: nat)
    requires |segs| == |pis| && Fits(segs, host) && Backed(pis, area) && Pool.Distinct(pis) && dataOff % PAGE == 0
    requires k < |segs| && j < segs[k].len
    ensures var now := WriteAll(area, host, segs, pis);
            var addr := IovOf(dataOff, pis[k], segs[k]).base + j;
            && FaultIndex(dataOff, addr) in now && |now[FaultIndex(dataOff, addr)]| == PAGE
            && UserByte(now, dataOff, addr) == host[segs[k].page][segs[k].offset + j]
  {
    IovFaultsToItsPage(dataOff, pis[k], segs[k], j);
    WrittenInPlace(area, host, segs, pis, k);
  }

  /** The offset ubbd_release_page hands to the unmap: an `int` product added to the data offset. */
  function UnmapOffset(dataOff: nat, i: nat): int { dataOff + Pool.I32(i * PAGE) }

  /** The product is a whole number of pages. */
  lemma UnmapIsWhole(i: nat)
    ensures Pool.I32(i * PAGE) == Pool.UnmapIndex(i) * PAGE
  {
    var x := i * PAGE + 0x8000_0000;
    var turns := x / 0x1_0000_0000;
    assert Pool.I32(i * PAGE) == i * PAGE - 0x1_0000_0000 * turns == (i - 0x10_0000 * turns) * PAGE;
  }

  /**
   The unmap removes the mapping that the pool model says: the page that faults at that offset when the
   product is not negative, and nothing of the data area when it is. It is the released page exactly
   when the product does not overflow.
   */
  lemma UnmapHitsPage(dataOff: nat, i: nat)
    requires dataOff % PAGE == 0
    ensures UnmapOffset(dataOff, i) == IovOf(dataOff, i, Segment(0, 0, PAGE)).base <==> i < Pool.INT_PAGES
    ensures if Pool.UnmapIndex(i) < 0 then UnmapOffset(dataOff, i) < dataOff
            else FaultIndex(dataOff, UnmapOffset(dataOff, i)) == Pool.UnmapIndex(i)
  {
    UnmapIsWhole(i);
    Pool.UnmapHitsBelow(i);
    if Pool.UnmapIndex(i) >= 0 { IovFaultsToItsPage(dataOff, Pool.UnmapIndex(i), Segment(0, 0, PAGE), 0); }
  }

  // ---------------------------------------------------------------- the request's page indices

  class Request {
    const inlinePi: array<nat>
    var pi: array<nat>
    var piCnt: nat

    ghost predicate Valid()
      reads this
    {
      inlinePi.Length == INLINE_PI_MAX && inlinePi != pi
          && (piCnt > INLINE_PI_MAX ==> pi.Length == piCnt - INLINE_PI_MAX)
    }

    /** The indices of the request, whether inline or in the overflow array. */
    ghost function Pis(): (r: seq<nat>)
      requires Valid()
      reads this, inlinePi, pi
      ensures |r| == piCnt
    {
      if piCnt <= INLINE_PI_MAX then inlinePi[..piCnt] else inlinePi[..] + pi[..]
    }

    /** ubbd_req_pi_alloc happens for more than INLINE_PI_MAX segments only. */
    constructor (segments: nat)
      ensures Valid() && piCnt == segments && fresh(inlinePi) && fresh(pi)
    {
      inlinePi := new nat[INLINE_PI_MAX](_ => 0);
      pi := new nat[if segments > INLINE_PI_MAX then segments - INLINE_PI_MAX else 0](_ => 0);
      piCnt := segments;
    }

    /** ubbd_req_get_pi. */
    method GetPi(index: nat) returns (v: nat)
      requires Valid() && index < piCnt
      ensures v == Pis()[index]
    {
      if index < INLINE_PI_MAX { v := inlinePi[index]; } else { v := pi[index - INLINE_PI_MAX]; }
    }

    /** ubbd_req_set_pi. */
    method SetPi(index: nat, v: nat)
      requires Valid() && index < piCnt
      modifies inlinePi, pi
      ensures Valid() && Pis() == old(Pis())[index := v]
    {
      if index < INLINE_PI_MAX { inlinePi[index] := v; } else { pi[index - INLINE_PI_MAX] := v; }
    }
  }

  // ---------------------------------------------------------------- the loops

  /** Where bio `b` sits in the flattened chain. */
  lemma {:induction false} FlattenAt(chain: seq<Bio>, b: nat)
    requires b < |chain|
    ensures var k := |Flatten(chain[..b])|;
            && k + |chain[b]| <= |Flatten(chain)|
            && Flatten(chain)[k..k + |chain[b]|] == chain[b]
            && |Flatten(chain[..b + 1])| == k + |chain[b]|
  {
    if b == 0 {
      assert chain[..0] == [] && chain[..1][1..] == [] && chain[..1][0] == chain[0];
    } else {
      FlattenAt(chain[1..], b - 1);
      assert chain[..b][1..] == chain[1..][..b - 1] && chain[..b + 1][1..] == chain[1..][..b];
      var k := |Flatten(chain[1..][..b - 1])|;
      assert Flatten(chain)[|chain[0]| + k..|chain[0]| + k + |chain[b]|] == Flatten(chain[1..])[k..k + |chain[b]|];
    }
  }

  /** `now` is the data area with the first `n` segments copied into `from`. */
  ghost predicate WrittenUpTo(now: Pages, from: Pages, host: Pages, segs: seq<Segment>, pis: seq<nat>, n: nat) {
    n <= |segs| == |pis| && Fits(segs, host) && Backed(pis, from) && now == WriteFirst(from, host, segs, pis, n)
  }

  /** `now` is the host memory with the first `n` segments copied over `from`. */
  ghost predicate ReadUpTo(now: Pages, from: Pages, area: Pages, segs: seq<Segment>, pis: seq<nat>, n: nat) {
    n <= |segs| == |pis| && Fits(segs, from) && Backed(pis, area) && now == ReadFirst(from, area, segs, pis, n)
  }

  lemma SliceAt(segs: seq<Segment>, k: nat, bio: Bio, j: nat)
    requires k + |bio| <= |segs| && segs[k..k + |bio|] == bio && j < |bio|
    ensures bio[j] == segs[k + j]
  {
  }

  class Mover {
    var area: Pages
    var host: Pages

    /** Segment `i` of the request: the loop body of copy_data_to_ubbdreq. */
    method CopyOneIn(req: Request, s: Segment, i: nat, ghost segs: seq<Segment>, ghost from: Pages)
      requires req.Valid() && i < |segs| && s == segs[i] && WrittenUpTo(area, from, host, segs, req.Pis(), i)
      modifies this`area
      ensures WrittenUpTo(area, from, host, segs, req.Pis(), i + 1)
    {
      var pi := req.GetPi(i);
      area := area[pi := CopyRange(area[pi], host[s.page], s)];
    }

    /** The segments of one bio, from bvec_index `k` on. */
    method CopyBioIn(req: Request, bio: Bio, k: nat, ghost segs: seq<Segment>, ghost from: Pages) returns (next: nat)
      requires req.Valid() && k + |bio| <= |segs| && segs[k..k + |bio|] == bio
      requires WrittenUpTo(area, from, host, segs, req.Pis(), k)
      modifies this`area
      ensures next == k + |bio| && WrittenUpTo(area, from, host, segs, req.Pis(), next)
    {
      next := k;
      for j := 0 to |bio|
        invariant next == k + j && WrittenUpTo(area, from, host, segs, req.Pis(), next)
      {
        SliceAt(segs, k, bio, j);
        CopyOneIn(req, bio[j], next, segs, from);
        next := next + 1;
      }
    }

    /** copy_data_to_ubbdreq. */
    method CopyToRequest(req: Request, chain: seq<Bio>)
      requires req.Valid() && req.piCnt == |Flatten(chain)|
      requires Fits(Flatten(chain), host) && Backed(req.Pis(), area)
      modifies this`area
      ensures area == WriteAll(old(area), host, Flatten(chain), req.Pis()) && area.Keys == old(area).Keys
      ensures forall i :: i in old(area) && i !in req.Pis() ==> area[i] == old(area)[i]
    {
      ghost var segs, from := Flatten(chain), area;
      var k := 0;
      assert chain[..0] == [];
      for b := 0 to |chain|
        invariant k == |Flatten(chain[..b])| && WrittenUpTo(area, from, host, segs, req.Pis(), k)
      {
        FlattenAt(chain, b);
        k := CopyBioIn(req, chain[b], k, segs, from);
      }
      assert chain[..|chain|] == chain;
      WriteLeavesOthers(from, host, segs, req.Pis(), |segs|);
    }

    /** Segment `i` of the request: the loop body of copy_data_from_ubbdreq. */
    method CopyOneOut(req: Request, s: Segment, i: nat, ghost segs: seq<Segment>, ghost from: Pages)
      requires req.Valid() && i < |segs| && s == segs[i] && ReadUpTo(host, from, area, segs, req.Pis(), i)
      modifies this`host
      ensures ReadUpTo(host, from, area, segs, req.Pis(), i + 1)
    {
      var pi := req.GetPi(i);
      host := host[s.page := CopyRange(host[s.page], area[pi], s)];
    }

    method CopyBioOut(req: Request, bio: Bio, k: nat, ghost segs: seq<Segment>, ghost from: Pages) returns (next: nat)
      requires req.Valid() && k + |bio| <= |segs| && segs[k..k + |bio|] == bio
      requires ReadUpTo(host, from, area, segs, req.Pis(), k)
      modifies this`host
      ensures next == k + |bio| && ReadUpTo(host, from, area, segs, req.Pis(), next)
    {
      next := k;
      for j := 0 to |bio|
        invariant next == k + j && ReadUpTo(host, from, area, segs, req.Pis(), next)
      {
        SliceAt(segs, k, bio, j);
        CopyOneOut(req, bio[j], next, segs, from);
        next := next + 1;
      }
    }

    /** copy_data_from_ubbdreq. */
    method CopyFromRequest(req: Request, chain: seq<Bio>)
      requires req.Valid() && req.piCnt == |Flatten(chain)|
      requires Fits(Flatten(chain), host) && Backed(req.Pis(), area)
      modifies this`host
      ensures host == ReadAll(old(host), area, Flatten(chain), req.Pis()) && host.Keys == old(host).Keys
      ensures forall p :: p in old(host) && OffPage(Flatten(chain), p) ==> host[p] == old(host)[p]
    {
      ghost var segs, from := Flatten(chain), host;
      var k := 0;
      assert chain[..0] == [];
      for b := 0 to |chain|
        invariant k == |Flatten(chain[..b])| && ReadUpTo(host, from, area, segs, req.Pis(), k)
      {
        FlattenAt(chain, b);
        k := CopyBioOut(req, chain[b], k, segs, from);
      }
      assert chain[..|chain|] == chain;
      ReadLeavesOthers(from, area, segs, req.Pis(), |segs|);
    }
  }

  function TotalLen(segs: seq<Segment>): nat {
    if segs == [] then 0 else TotalLen(segs[..|segs| - 1]) + segs[|segs| - 1].len
  }

  function TotalIov(iovs: seq<SubmitRing.Iov>): nat {
    if iovs == [] then 0 else TotalIov(iovs[..|iovs| - 1]) + iovs[|iovs| - 1].len
  }

  /** One iov per segment, at its page. */
  ghost predicate Describes(iovs: seq<SubmitRing.Iov>, dataOff: nat, pis: seq<nat>, segs: seq<Segment>) {
    |iovs| <= |segs| && |iovs| <= |pis| && forall k :: 0 <= k < |iovs| ==> iovs[k] == IovOf(dataOff, pis[k], segs[k])
  }

  /** The iovs of a request carry as many bytes as its segments. */
  lemma {:induction false} IovTotal(iovs: seq<SubmitRing.Iov>, dataOff: nat, pis: seq<nat>, segs: seq<Segment>)
    requires Describes(iovs, dataOff, pis, segs) && |iovs| == |segs|
    ensures TotalIov(iovs) == TotalLen(segs)
    decreases |segs|
  {
    if segs != [] {
      var n := |segs| - 1;
      assert iovs[n] == IovOf(dataOff, pis[n], segs[n]);
      IovTotal(iovs[..n], dataOff, pis, segs[..n]);
    }
  }

  method SetBioIovs(req: Request, bio: Bio, dataOff: nat, before: seq<SubmitRing.Iov>, ghost segs: seq<Segment>)
      returns (iovs: seq<SubmitRing.Iov>)
    requires req.Valid() && req.piCnt == |segs|
    requires |before| + |bio| <= |segs| && segs[|before|..|before| + |bio|] == bio
    requires Describes(before, dataOff, req.Pis(), segs)
    ensures Describes(iovs, dataOff, req.Pis(), segs) && |iovs| == |before| + |bio|
  {
    iovs := before;
    for j := 0 to |bio|
      invariant |iovs| == |before| + j && Describes(iovs, dataOff, req.Pis(), segs)
    {
      assert bio[j] == segs[|before| + j];
      var i := req.GetPi(|iovs|);
      iovs := iovs + [IovOf(dataOff, i, bio[j])];
    }
  }

  /** ubbd_set_se_iov over the chain. */
  method SetIovs(req: Request, chain: seq<Bio>, dataOff: nat) returns (iovs: seq<SubmitRing.Iov>)
    requires req.Valid() && req.piCnt == |Flatten(chain)|
    ensures |iovs| == |Flatten(chain)| && Describes(iovs, dataOff, req.Pis(), Flatten(chain))
    ensures TotalIov(iovs) == TotalLen(Flatten(chain))
  {
    ghost var segs := Flatten(chain);
    iovs := [];
    assert chain[..0] == [];
    for b := 0 to |chain|
      invariant |iovs| == |Flatten(chain[..b])| <= |segs| && Describes(iovs, dataOff, req.Pis(), segs)
    {
      FlattenAt(chain, b);
      iovs := SetBioIovs(req, chain[b], dataOff, iovs, segs);
    }
    assert chain[..|chain|] == chain;
    IovTotal(iovs, dataOff, req.Pis(), segs);
  }
}
