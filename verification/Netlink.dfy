/** The status reply: what is put into it, in which order, and the size computed for it beforehand. */
module Netlink {
  const HDR: nat := 4

  /** nla_attr_size and nla_total_size. */
  function AttrSize(payload: nat): nat { HDR + payload }

  function TotalSize(payload: nat): nat { (HDR + payload + 3) / 4 * 4 }

  /**
   A queue in the reply: the minor and map size of its kring device, its backend, its status, the CPUs it
   serves, and whether its 64-bit attribute needs a padding attribute where it lands.
   */
  datatype QueueInfo = QueueInfo(minor: int, mapSize: nat, pid: int, status: int, cpus: seq<nat>, unaligned: bool)

  datatype DeviceInfo = DeviceInfo(id: int, status: nat, queues: seq<QueueInfo>)

  // ---------------------------------------------------------------- sizes

  /** get_queue_msg_size, with the nesting of its third term as written. */
  function QueueMsgSize(q: QueueInfo): nat {
    AttrSize(4) + (AttrSize(4) + AttrSize(8 + AttrSize(4))) + AttrSize(4) + AttrSize(4) + AttrSize(4) * |q.cpus|
  }

  function QueuesSize(qs: seq<QueueInfo>): nat {
    if qs == [] then 0 else QueueMsgSize(qs[0]) + QueuesSize(qs[1..])
  }

  /** get_status_msg_size: the loop over the queues, rounded up. */
  method StatusMsgSize(qs: seq<QueueInfo>) returns (size: nat)
    ensures size == TotalSize(AttrSize(4) + AttrSize(1 + AttrSize(4)) + QueuesSize(qs))
  {
    var sum := AttrSize(4) + AttrSize(1 + AttrSize(4));
    for i := 0 to |qs|
      invariant sum + QueuesSize(qs[i..]) == AttrSize(4) + AttrSize(1 + AttrSize(4)) + QueuesSize(qs)
    {
      sum := sum + QueueMsgSize(qs[i]);
      assert qs[i..][1..] == qs[i + 1..];
    }
    size := TotalSize(sum);
  }

  // ---------------------------------------------------------------- attributes

  datatype Nest = DevInfo | QueueList | QueueItem | CpuList

  datatype Kind = DevId | DevStatus | KringId | MapSize | BackendPid | QueueStatus | CpuId | RetVal

  /** What a reply consists of, in order: nests that open and close, and values of 1, 4 or 8 bytes. */
  datatype Attr = Open(nest: Nest) | Close | Value8(kind: Kind, v: int) | Value32(kind: Kind,
      v: int) | Value64(kind: Kind, v: int, padded: bool)

  function Size(a: Attr): nat {
    match a
    case Open(_) => TotalSize(0)
    case Close => 0
    case Value8(_, _) => TotalSize(1)
    case Value32(_, _) => TotalSize(4)
    case Value64(_, _, padded) => TotalSize(8) + if padded then TotalSize(0) else 0
  }

  function CpuAttrs(cpus: seq<nat>): seq<Attr> {
    if cpus == [] then [] else CpuAttrs(cpus[..|cpus| - 1]) + [Value32(CpuId, cpus[|cpus| - 1])]
  }

  function QueueHead(q: QueueInfo): seq<Attr> {
    [Open(QueueItem), Value32(KringId, q.minor), Value64(MapSize, q.mapSize, q.unaligned), Value32(BackendPid, q.pid),
     Value32(QueueStatus, q.status), Open(CpuList)]
  }

  /** A queue's item: its four values, then the CPUs it serves. */
  function QueueAttrs(q: QueueInfo): seq<Attr> { QueueHead(q) + CpuAttrs(q.cpus) + [Close, Close] }

  function QueuesAttrs(qs: seq<QueueInfo>): seq<Attr> {
    if qs == [] then [] else QueuesAttrs(qs[..|qs| - 1]) + QueueAttrs(qs[|qs| - 1])
  }

  function QueueListAttrs(qs: seq<QueueInfo>): seq<Attr> { [Open(QueueList)] + QueuesAttrs(qs) + [Close] }

  /** The whole reply: the device with all its queues, and the return value. */
  function ReplyAttrs(d: DeviceInfo): seq<Attr> {
    [Open(DevInfo), Value32(DevId, d.id), Value8(DevStatus, d.status)] + QueueListAttrs(d.queues)
    + [Close, Value32(RetVal, 0)]
  }

  // ---------------------------------------------------------------- bytes

  /** What the attributes of a queue take, exactly. */
  function QueueBytes(q: QueueInfo): nat {
    TotalSize(0) + TotalSize(4) + (TotalSize(8) + if q.unaligned then TotalSize(0) else 0) + TotalSize(4) + TotalSize(4)
    + TotalSize(0) + TotalSize(4) * |q.cpus|
  }

  function QueuesBytes(qs: seq<QueueInfo>): nat {
    if qs == [] then 0 else QueueBytes(qs[0]) + QueuesBytes(qs[1..])
  }

  function ReplyBytes(d: DeviceInfo): nat {
    TotalSize(0) + TotalSize(4) + TotalSize(1) + TotalSize(0) + QueuesBytes(d.queues) + TotalSize(4)
  }

  /** The sizes computed for the queues cover what they take. */
  lemma {:induction false} QueuesCovered(qs: seq<QueueInfo>)
    ensures QueuesBytes(qs) <= QueuesSize(qs)
  {
    if qs != [] { QueuesCovered(qs[1..]); }
  }

  lemma ItemGrows(qs: seq<QueueInfo>, i: nat)
    requires i < |qs|
    ensures QueuesAttrs(qs[..i + 1]) == QueuesAttrs(qs[..i]) + QueueAttrs(qs[i])
    ensures QueuesBytes(qs[i..]) == QueueBytes(qs[i]) + QueuesBytes(qs[i + 1..])
  {
    assert qs[i..][1..] == qs[i + 1..] && qs[..i + 1][..i] == qs[..i];
  }

  // ---------------------------------------------------------------- the reply in place

  /** A reply buffer; a put that does not fit fails and leaves it alone. */
  class Reply {
    const room: nat
    var used: nat
    var out: seq<Attr>
    var refused: bool             // some put failed, whether or not its caller looked

    constructor (room: nat)
      ensures this.room == room && used == 0 && out == [] && !refused
    {
      this.room, used, out, refused := room, 0, [], false;
    }

    method Put(a: Attr) returns (ok: bool)
      modifies this
      ensures ok <==> old(used) + Size(a) <= room
      ensures used == if ok then old(used) + Size(a) else old(used)
      ensures out == if ok then old(out) + [a] else old(out)
      ensures refused == (old(refused) || !ok)
    {
      ok := used + Size(a) <= room;
      if ok { used, out := used + Size(a), out + [a]; } else { refused := true; }
    }

    /** The nest of CPU ids, whose puts nobody checks. */
    method FillCpus(cpus: seq<nat>)
      requires !refused && used + TotalSize(4) * |cpus| <= room
      modifies this
      ensures !refused && used == old(used) + TotalSize(4) * |cpus| && out == old(out) + CpuAttrs(cpus)
    {
      ghost var was, start := out, used;
      assert out == was + CpuAttrs(cpus[..0]);
      for c := 0 to |cpus|
        invariant !refused && used == start + TotalSize(4) * c && out == was + CpuAttrs(cpus[..c])
      {
        assert cpus[..c + 1][..c] == cpus[..c];
        var _ := Put(Value32(CpuId, cpus[c]));
      }
      assert cpus[..|cpus|] == cpus;
    }

    /** fill_queue_info_item: nest, four checked attributes, then the CPUs. */
    method FillQueueItem(q: QueueInfo) returns (ok: bool)
      requires !refused && used + QueueBytes(q) <= room
      modifies this
      ensures ok && !refused && used == old(used) + QueueBytes(q) && out == old(out) + QueueAttrs(q)
    {
      ghost var was := out;
      ok := FillQueueHead(q);
      if !ok { return; }
      FillCpus(q.cpus);
      var _ := Put(Close);
      var _ := Put(Close);
      assert out == was + QueueAttrs(q);
    }

    /** The nest, its checked attributes, and the nest of the CPUs. */
    method FillQueueHead(q: QueueInfo) returns (ok: bool)
      requires !refused && used + QueueBytes(q) <= room
      modifies this
      ensures ok && !refused && used + TotalSize(4) * |q.cpus| == old(used) + QueueBytes(q)
      ensures out == old(out) + QueueHead(q)
    {
      var _ := Put(Open(QueueItem));
      ok := Put(Value32(KringId, q.minor));
      if ok { ok := Put(Value64(MapSize, q.mapSize, q.unaligned)); }
      if ok { ok := Put(Value32(BackendPid, q.pid)); }
      if ok { ok := Put(Value32(QueueStatus, q.status)); }
      if !ok { return; }
      var _ := Put(Open(CpuList));
    }

    /** The queues' items, one after the other. */
    method FillItems(qs: seq<QueueInfo>) returns (ok: bool)
      requires !refused && used + QueuesBytes(qs) <= room
      modifies this
      ensures ok && !refused && used == old(used) + QueuesBytes(qs) && out == old(out) + QueuesAttrs(qs)
    {
      ghost var was, total := out, used + QueuesBytes(qs);
      assert qs[..0] == [] && qs[0..] == qs;
      for i := 0 to |qs|
        invariant !refused && used + QueuesBytes(qs[i..]) == total && out == was + QueuesAttrs(qs[..i])
      {
        ItemGrows(qs, i);
        ok := FillQueueItem(qs[i]);
        if !ok { return; }
      }
      assert qs[..|qs|] == qs;
      ok := true;
    }

    /** fill_ubbd_status_queue_info. */
    method FillQueues(qs: seq<QueueInfo>) returns (ok: bool)
      requires !refused && used + TotalSize(0) + QueuesBytes(qs) <= room
      modifies this
      ensures ok && !refused && used == old(used) + TotalSize(0) + QueuesBytes(qs)
      ensures out == old(out) + QueueListAttrs(qs)
    {
      var _ := Put(Open(QueueList));
      ok := FillItems(qs);
      if !ok { return; }
      var _ := Put(Close);
    }

    /** fill_ubbd_status_detail inside its DEV_INFO nest, then RETVAL. */
    method FillReply(d: DeviceInfo) returns (ok: bool)
      requires !refused && used + ReplyBytes(d) <= room
      modifies this
      ensures ok && !refused && used == old(used) + ReplyBytes(d) && out == old(out) + ReplyAttrs(d)
    {
      ghost var was := out;
      ok := Put(Open(DevInfo));
      if ok { ok := Put(Value32(DevId, d.id)); }
      if ok { ok := Put(Value8(DevStatus, d.status)); }
      if ok { ok := FillQueues(d.queues); }
      if !ok { return; }
      var _ := Put(Close);
      ok := Put(Value32(RetVal, 0));
      assert out == was + ReplyAttrs(d);
    }
  }

  /** handle_cmd_status: for every device the computed size takes the whole reply, unchecked puts too. */
  method StatusReply(d: DeviceInfo) returns (ok: bool, refused: bool, out: seq<Attr>)
    ensures ok && !refused && out == ReplyAttrs(d)
  {
    var size := StatusMsgSize(d.queues);
    var reply := new Reply(TotalSize(AttrSize(4)) + size + AttrSize(4));
    QueuesCovered(d.queues);
    ok := reply.FillReply(d);
    refused, out := reply.refused, reply.out;
  }

  /** ubbd_nl_reply_add_dev_done sizes the same reply with one more rounding. */
  method AddDevReply(d: DeviceInfo) returns (ok: bool, refused: bool, out: seq<Attr>)
    ensures ok && !refused && out == ReplyAttrs(d)
  {
    var size := StatusMsgSize(d.queues);
    var reply := new Reply(size + TotalSize(AttrSize(4)) + TotalSize(AttrSize(4)));
    QueuesCovered(d.queues);
    ok := reply.FillReply(d);
    refused, out := reply.refused, reply.out;
  }
}
