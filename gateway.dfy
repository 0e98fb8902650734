/** The dispatch gateway of the management node: sending a command or a response to
    a dnode, either through a registered direct-call function or through the dnode
    management queue. On the queued path the type, code and length travel in the nine
    bytes just before the payload, and the queue's task reads them back from there. */
module Gateway {
  import opened Wire

  /** An opaque `void *` handle carried along with a message (`ahandle`, `pConn`). */
  datatype Handle = NullHandle | Handle(id: nat)

  const HEADER_SIZE: nat := 9
  const TSDB_CODE_SUCCESS: int32 := 0

  /** The three fields a queued message carries in front of its payload. */
  datatype Header = Header(msgType: int8, code: int32, contLen: int32)

  /** The nine header bytes, lowest address first: the type at `pCont - 9`, the code at
      `pCont - 8 .. pCont - 5`, the length at `pCont - 4 .. pCont - 1`. */
  function EncodeHeader(h: Header): (bs: seq<byte>)
    ensures |bs| == HEADER_SIZE
  {
    [ByteOfInt8(h.msgType)] + LittleEndian(Uint32OfInt32(h.code)) + LittleEndian(Uint32OfInt32(h.contLen))
  }

  /** Memory after the sender has stamped header `h` in front of the payload at `pCont`. */
  function WriteHeader(mem: seq<byte>, pCont: nat, h: Header): (r: seq<byte>)
    requires HEADER_SIZE <= pCont <= |mem|
    ensures |r| == |mem|
    ensures r[pCont..] == mem[pCont..]
    ensures r[..pCont - HEADER_SIZE] == mem[..pCont - HEADER_SIZE]
    ensures r[pCont - HEADER_SIZE..pCont] == EncodeHeader(h)
  {
    mem[..pCont - HEADER_SIZE] + EncodeHeader(h) + mem[pCont..]
  }

  /** The header the queue task reads in front of the payload at `pCont`. */
  function ReadHeader(mem: seq<byte>, pCont: nat): Header
    requires HEADER_SIZE <= pCont <= |mem|
  {
    Header(Int8OfByte(mem[pCont - 9]),
           Int32OfUint32(FromLittleEndian(mem[pCont - 8..pCont - 4])),
           Int32OfUint32(FromLittleEndian(mem[pCont - 4..pCont])))
  }

  /** What the sender writes is exactly what the queue task reads back. */
  lemma HeaderRoundTrip(mem: seq<byte>, pCont: nat, h: Header)
    requires HEADER_SIZE <= pCont <= |mem|
    ensures ReadHeader(WriteHeader(mem, pCont, h), pCont) == h
  {
    var r := WriteHeader(mem, pCont, h);
    var enc := EncodeHeader(h);
    assert r[pCont - 9..pCont] == enc;
    assert r[pCont - 9] == enc[0];
    assert r[pCont - 8..pCont - 4] == enc[1..5] == LittleEndian(Uint32OfInt32(h.code));
    assert r[pCont - 4..pCont] == enc[5..9] == LittleEndian(Uint32OfInt32(h.contLen));
    LittleEndianRoundTrip(Uint32OfInt32(h.code));
    LittleEndianRoundTrip(Uint32OfInt32(h.contLen));
  }

  /** A task on the dnode management queue: the payload start and the handle;
      its function is always the queue task below. */
  datatype SchedMsg = SchedMsg(buf: array<byte>, msg: nat, ahandle: Handle)

  /** A call of a registered direct-call function, with the arguments it received. */
  datatype DirectCall =
    | MsgCall(msgType: int8, buf: array<byte>, pCont: nat, contLen: int32, ahandle: Handle)
    | RspCall(conn: Handle, code: int32, buf: array<byte>, pCont: nat, contLen: int32)

  /** The arguments the queue task hands to the dnode's message entry point. */
  datatype Delivery = Delivery(msgType: int8, buf: array<byte>, pCont: nat, contLen: int32, ahandle: Handle, code: int32)

  /** Writes the four bytes of host-order word `w` at `buf[at..at + 4]`. */
  method PutWord(buf: array<byte>, at: nat, w: uint32)
    requires at + 4 <= buf.Length
    modifies buf
    ensures buf[..] == old(buf[..])[..at] + LittleEndian(w) + old(buf[..])[at + 4..]
  {
    var bs := LittleEndian(w);
    buf[at], buf[at + 1], buf[at + 2], buf[at + 3] := bs[0], bs[1], bs[2], bs[3];
    assert buf[..] == old(buf[..])[..at] + bs + old(buf[..])[at + 4..];
  }

  /** Reads the host-order word at `buf[at..at + 4]`. */
  method GetWord(buf: array<byte>, at: nat) returns (w: uint32)
    requires at + 4 <= buf.Length
    ensures w == FromLittleEndian(buf[at..at + 4])
  {
    w := FromLittleEndian([buf[at], buf[at + 1], buf[at + 2], buf[at + 3]]);
    assert buf[at..at + 4] == [buf[at], buf[at + 1], buf[at + 2], buf[at + 3]];
  }

  /** The queue task: recovers type, code and length from the bytes before the payload
      and forwards them, with the payload and the handle, to the dnode. */
  method DeliverQueued(sched: SchedMsg) returns (d: Delivery)
    requires HEADER_SIZE <= sched.msg <= sched.buf.Length
    ensures d.buf == sched.buf && d.pCont == sched.msg && d.ahandle == sched.ahandle
    ensures Header(d.msgType, d.code, d.contLen) == ReadHeader(sched.buf[..], sched.msg)
  {
    var lenWord := GetWord(sched.buf, sched.msg - 4);
    var codeWord := GetWord(sched.buf, sched.msg - 8);
    var msgType := Int8OfByte(sched.buf[sched.msg - 9]);
    assert sched.buf[sched.msg - 4..sched.msg] == sched.buf[..][sched.msg - 4..sched.msg];
    assert sched.buf[sched.msg - 8..sched.msg - 4] == sched.buf[..][sched.msg - 8..sched.msg - 4];
    d := Delivery(msgType, sched.buf, sched.msg, Int32OfUint32(lenWord), sched.ahandle, Int32OfUint32(codeWord));
  }

  /** The gateway's process-wide state: whether a direct-call function is registered for
      commands (`mgmtSendMsgToDnodeFp`) and for responses (`mgmtSendRspToDnodeFp`), the
      calls made to them, and the tasks scheduled on the dnode management queue. */
  class Dispatcher {
    var msgFp: bool
    var rspFp: bool
    var direct: seq<DirectCall>
    var queue: seq<SchedMsg>

    /** Every queued payload has room for its header in front of it. */
    ghost predicate Valid()
      reads this
    {
      forall m :: m in queue ==> HEADER_SIZE <= m.msg <= m.buf.Length
    }

    constructor (msgFp: bool, rspFp: bool)
      ensures Valid()
      ensures this.msgFp == msgFp && this.rspFp == rspFp && direct == [] && queue == []
    {
      this.msgFp, this.rspFp := msgFp, rspFp;
      direct, queue := [], [];
    }

    /** Sends a command to the dnode. Direct mode forwards the arguments untouched;
        queued mode stamps type, `TSDB_CODE_SUCCESS` and length before the payload
        and schedules the queue task. */
    method SendMsgToDnode(msgType: int8, buf: array<byte>, pCont: nat, contLen: int32, ahandle: Handle)
      requires Valid()
      requires pCont <= buf.Length
      requires !msgFp ==> HEADER_SIZE <= pCont
      modifies this`direct, this`queue, buf
      ensures Valid()
      ensures msgFp ==> direct == old(direct) + [MsgCall(msgType, buf, pCont, contLen, ahandle)]
                        && queue == old(queue) && buf[..] == old(buf[..])
      ensures !msgFp ==> direct == old(direct) && queue == old(queue) + [SchedMsg(buf, pCont, ahandle)]
                         && buf[..] == WriteHeader(old(buf[..]), pCont, Header(msgType, TSDB_CODE_SUCCESS, contLen))
    {
      if msgFp {
        direct := direct + [MsgCall(msgType, buf, pCont, contLen, ahandle)];
      } else {
        StampHeader(buf, pCont, Header(msgType, TSDB_CODE_SUCCESS, contLen));
        queue := queue + [SchedMsg(buf, pCont, ahandle)];
      }
    }

    /** Sends a response to the dnode. Direct mode forwards connection, code, payload
        and length (not the type); queued mode stamps type, the caller's code and
        length before the payload and schedules the queue task with no handle. */
    method SendRspToDnode(conn: Handle, msgType: int8, code: int32, buf: array<byte>, pCont: nat, contLen: int32)
      requires Valid()
      requires pCont <= buf.Length
      requires !rspFp ==> HEADER_SIZE <= pCont
      modifies this`direct, this`queue, buf
      ensures Valid()
      ensures rspFp ==> direct == old(direct) + [RspCall(conn, code, buf, pCont, contLen)]
                        && queue == old(queue) && buf[..] == old(buf[..])
      ensures !rspFp ==> direct == old(direct) && queue == old(queue) + [SchedMsg(buf, pCont, NullHandle)]
                         && buf[..] == WriteHeader(old(buf[..]), pCont, Header(msgType, code, contLen))
    {
      if rspFp {
        direct := direct + [RspCall(conn, code, buf, pCont, contLen)];
      } else {
        StampHeader(buf, pCont, Header(msgType, code, contLen));
        queue := queue + [SchedMsg(buf, pCont, NullHandle)];
      }
    }

    /** The queue's consumer: takes the oldest task and runs the queue task on it. */
    method RunNextTask() returns (d: Delivery)
      requires Valid() && queue != []
      modifies this`queue
      ensures Valid() && queue == old(queue)[1..]
      ensures d.buf == old(queue)[0].buf && d.pCont == old(queue)[0].msg && d.ahandle == old(queue)[0].ahandle
      ensures Header(d.msgType, d.code, d.contLen) == ReadHeader(d.buf[..], d.pCont)
    {
      var m := queue[0];
      queue := queue[1..];
      d := DeliverQueued(m);
    }

    /** A command sent on the queued path reaches the dnode with its own type and length,
        code `TSDB_CODE_SUCCESS`, its handle and an unchanged payload. */
    method SendMsgThenDeliver(msgType: int8, buf: array<byte>, pCont: nat, contLen: int32, ahandle: Handle)
      returns (d: Delivery)
      requires Valid() && !msgFp && queue == []
      requires HEADER_SIZE <= pCont <= buf.Length
      modifies this`direct, this`queue, buf
      ensures d == Delivery(msgType, buf, pCont, contLen, ahandle, TSDB_CODE_SUCCESS)
      ensures buf[pCont..] == old(buf[pCont..]) && queue == [] && direct == old(direct)
    {
      SendMsgToDnode(msgType, buf, pCont, contLen, ahandle);
      HeaderRoundTrip(old(buf[..]), pCont, Header(msgType, TSDB_CODE_SUCCESS, contLen));
      d := RunNextTask();
      assert buf[pCont..] == buf[..][pCont..];
    }

    /** A response sent on the queued path reaches the dnode with its own type, code and
        length and an unchanged payload, but without the connection handle. */
    method SendRspThenDeliver(conn: Handle, msgType: int8, code: int32, buf: array<byte>, pCont: nat, contLen: int32)
      returns (d: Delivery)
      requires Valid() && !rspFp && queue == []
      requires HEADER_SIZE <= pCont <= buf.Length
      modifies this`direct, this`queue, buf
      ensures d == Delivery(msgType, buf, pCont, contLen, NullHandle, code)
      ensures buf[pCont..] == old(buf[pCont..]) && queue == [] && direct == old(direct)
    {
      SendRspToDnode(conn, msgType, code, buf, pCont, contLen);
      HeaderRoundTrip(old(buf[..]), pCont, Header(msgType, code, contLen));
      d := RunNextTask();
      assert buf[pCont..] == buf[..][pCont..];
    }
  }

  /** Writes the header fields in the order the source does: length, code, type. */
  method StampHeader(buf: array<byte>, pCont: nat, h: Header)
    requires HEADER_SIZE <= pCont <= buf.Length
    modifies buf
    ensures buf[..] == WriteHeader(old(buf[..]), pCont, h)
  {
    ghost var mem := buf[..];
    PutWord(buf, pCont - 4, Uint32OfInt32(h.contLen));
    PutWord(buf, pCont - 8, Uint32OfInt32(h.code));
    buf[pCont - 9] := ByteOfInt8(h.msgType);
    assert buf[..] == mem[..pCont - 9] + EncodeHeader(h) + mem[pCont..];
  }
}
