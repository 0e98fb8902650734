/** The management node's side of the dnode control protocol: the command senders,
    the two request handlers (table configuration, vnode configuration) and the
    router for every message a dnode sends to the management node. The metadata
    store, the master flag and the message builders are inputs. */
module Handlers {
  import opened Wire
  import opened Gateway
  import opened MgmtMsg

  datatype Option<T> = None | Some(value: T)

  datatype TableInfo = TableInfo(tableId: string, sid: int32)
  datatype VnodeGid = VnodeGid(ip: uint32, vnode: int32)
  datatype Vgroup = Vgroup(vgId: int32, numOfVnodes: nat, vnodeGid: seq<VnodeGid>)

  /** A create-table message as its builder returns it: the bytes, and the length
      field that the builder stores in network order. */
  datatype CreateTableMsg = CreateTableMsg(body: seq<byte>, contLenField: uint32)

  /** What the handlers consult: the master flag, the two metadata-store lookups, and
      the message builders (`None` when a builder returns NULL). */
  datatype Store = Store(
    sdbMaster: bool,
    tables: map<(uint32, int32, int32), TableInfo>,
    vgroups: map<(uint32, int32), Vgroup>,
    buildCreateTable: TableInfo -> Option<CreateTableMsg>,
    buildRemoveTable: TableInfo -> Option<seq<byte>>,
    buildVpeers: (Vgroup, int32) -> Option<seq<byte>>)

  // ---------------------------------------------------------------- command senders

  /** Sends the built create-table message, with the length taken from its own
      (network-order) length field; sends nothing when the builder fails. */
  function SendCreateTableMsg(st: Store, table: TableInfo, handle: Handle): (cmds: seq<Command>)
    ensures |cmds| == (if st.buildCreateTable(table).Some? then 1 else 0)
    ensures forall c :: c in cmds ==>
              c.msgType == TSDB_MSG_TYPE_DNODE_CREATE_TABLE && c.ahandle == handle
              && c.body == st.buildCreateTable(table).value.body
              && c.contLen == Int32OfUint32(ByteSwap(st.buildCreateTable(table).value.contLenField))
  {
    match st.buildCreateTable(table)
    case None => []
    case Some(m) => [Command(TSDB_MSG_TYPE_DNODE_CREATE_TABLE, m.body, Int32OfUint32(ByteSwap(m.contLenField)), handle)]
  }

  /** Sends the built remove-table message with its full size; nothing when the builder fails. */
  function SendRemoveTableMsg(st: Store, table: TableInfo, handle: Handle): (cmds: seq<Command>)
    ensures |cmds| == (if st.buildRemoveTable(table).Some? then 1 else 0)
    ensures forall c :: c in cmds ==>
              c.msgType == TSDB_MSG_TYPE_DNODE_REMOVE_TABLE && c.ahandle == handle
              && c.body == st.buildRemoveTable(table).value && c.contLen == |c.body|
  {
    match st.buildRemoveTable(table)
    case None => []
    case Some(body) => [Command(TSDB_MSG_TYPE_DNODE_REMOVE_TABLE, body, |body|, handle)]
  }

  /** Sends the built vnode-peers message for `vnode` of the vgroup; nothing when the builder fails. */
  function SendVPeersMsg(st: Store, vgroup: Vgroup, vnode: int32, handle: Handle): (cmds: seq<Command>)
    ensures |cmds| == (if st.buildVpeers(vgroup, vnode).Some? then 1 else 0)
    ensures forall c :: c in cmds ==>
              c.msgType == TSDB_MSG_TYPE_DNODE_VPEERS && c.ahandle == handle
              && c.body == st.buildVpeers(vgroup, vnode).value && c.contLen == |c.body|
  {
    match st.buildVpeers(vgroup, vnode)
    case None => []
    case Some(body) => [Command(TSDB_MSG_TYPE_DNODE_VPEERS, body, |body|, handle)]
  }

  /** Size of the free-vnode message: one 32-bit vnode field. */
  const FREE_VNODE_MSG_SIZE: nat := 4

  /** The free-vnode message for `vnode`: its single field set to `htonl(vnode)`. The
      bytes are the vnode in network order, and a dnode that reads the field back
      through `ntohl` gets the vnode again. */
  function FreeVnodeBody(vnode: int32): (body: seq<byte>)
    ensures |body| == FREE_VNODE_MSG_SIZE
    ensures body == BigEndian(Uint32OfInt32(vnode))
    ensures Int32OfUint32(ByteSwap(FromLittleEndian(body))) == vnode
  {
    ByteSwapImage(Uint32OfInt32(vnode));
    LittleEndianRoundTrip(ByteSwap(Uint32OfInt32(vnode)));
    ByteSwapInvolutive(Uint32OfInt32(vnode));
    LittleEndian(ByteSwap(Uint32OfInt32(vnode)))
  }

  /** One free-vnode command for `vnode`. */
  function SendOneFreeVnodeMsg(vnode: int32, handle: Handle): (c: Command)
    ensures c.msgType == TSDB_MSG_TYPE_DNODE_FREE_VNODE && c.contLen == FREE_VNODE_MSG_SIZE && c.ahandle == handle
    ensures |c.body| == FREE_VNODE_MSG_SIZE && Int32OfUint32(ByteSwap(FromLittleEndian(c.body))) == vnode
  {
    Command(TSDB_MSG_TYPE_DNODE_FREE_VNODE, FreeVnodeBody(vnode), FREE_VNODE_MSG_SIZE, handle)
  }

  /** Sends one free-vnode command per vgroup member, in member order. */
  method SendFreeVnodesMsg(vgroup: Vgroup, handle: Handle) returns (cmds: seq<Command>)
    requires vgroup.numOfVnodes <= |vgroup.vnodeGid|
    ensures |cmds| == vgroup.numOfVnodes
    ensures forall i :: 0 <= i < |cmds| ==>
              cmds[i].msgType == TSDB_MSG_TYPE_DNODE_FREE_VNODE && cmds[i].ahandle == handle
              && |cmds[i].body| == FREE_VNODE_MSG_SIZE
              && Int32OfUint32(ByteSwap(FromLittleEndian(cmds[i].body))) == vgroup.vnodeGid[i].vnode
  {
    cmds := [];
    var i := 0;
    while i < vgroup.numOfVnodes
      invariant i <= vgroup.numOfVnodes
      invariant |cmds| == i
      invariant forall k :: 0 <= k < i ==> cmds[k] == SendOneFreeVnodeMsg(vgroup.vnodeGid[k].vnode, handle)
    {
      cmds := cmds + [SendOneFreeVnodeMsg(vgroup.vnodeGid[i].vnode, handle)];
      i := i + 1;
    }
  }

  // ---------------------------------------------------------------- inbound structs

  /** Inbound configuration requests are structs of 32-bit fields in network order:
      the table request holds dnode, vnode, sid; the vnode request dnode, vnode. */
  const TABLE_CFG_MSG_SIZE: nat := 12
  const VPEER_CFG_MSG_SIZE: nat := 8

  /** The field at byte offset `at` read through `ntohl`. */
  function NetField(pCont: seq<byte>, at: nat): (v: uint32)
    requires at + 4 <= |pCont|
    ensures v == FromLittleEndian(Reverse4(pCont[at..at + 4]))
  {
    ByteSwapReadsNetworkOrder(pCont[at..at + 4]);
    ByteSwap(FromLittleEndian(pCont[at..at + 4]))
  }

  /** The struct after `field = htonl(field)` on the field at `at`: that field's bytes
      are reversed, every other byte stays. */
  function ConvertFieldInPlace(pCont: seq<byte>, at: nat): (r: seq<byte>)
    requires at + 4 <= |pCont|
    ensures |r| == |pCont|
    ensures r[at..at + 4] == Reverse4(pCont[at..at + 4])
    ensures FromLittleEndian(r[at..at + 4]) == NetField(pCont, at)
    ensures forall i :: 0 <= i < |pCont| && !(at <= i < at + 4) ==> r[i] == pCont[i]
  {
    var w := FromLittleEndian(pCont[at..at + 4]);
    ByteSwapImage(w);
    FromLittleEndianRoundTrip(pCont[at..at + 4]);
    LittleEndianRoundTrip(ByteSwap(w));
    var r := pCont[..at] + LittleEndian(ByteSwap(w)) + pCont[at + 4..];
    assert r[at..at + 4] == LittleEndian(ByteSwap(w));
    r
  }

  datatype TableCfg = TableCfg(dnode: uint32, vnode: int32, sid: int32)
  datatype VpeerCfg = VpeerCfg(dnode: uint32, vnode: int32)

  function ReadTableCfg(pCont: seq<byte>): TableCfg
    requires TABLE_CFG_MSG_SIZE <= |pCont|
  {
    TableCfg(NetField(pCont, 0), Int32OfUint32(NetField(pCont, 4)), Int32OfUint32(NetField(pCont, 8)))
  }

  function ReadVpeerCfg(pCont: seq<byte>): VpeerCfg
    requires VPEER_CFG_MSG_SIZE <= |pCont|
  {
    VpeerCfg(NetField(pCont, 0), Int32OfUint32(NetField(pCont, 4)))
  }

  /** The table request after `dnode`, `vnode` and `sid` are converted in place: read
      as host words, the fields now hold the decoded values. */
  function ConvertTableCfgInPlace(pCont: seq<byte>): (r: seq<byte>)
    requires TABLE_CFG_MSG_SIZE <= |pCont|
    ensures |r| == |pCont| && r[TABLE_CFG_MSG_SIZE..] == pCont[TABLE_CFG_MSG_SIZE..]
    ensures FromLittleEndian(r[0..4]) == ReadTableCfg(pCont).dnode
    ensures Int32OfUint32(FromLittleEndian(r[4..8])) == ReadTableCfg(pCont).vnode
    ensures Int32OfUint32(FromLittleEndian(r[8..12])) == ReadTableCfg(pCont).sid
  {
    var p1 := ConvertFieldInPlace(pCont, 0);
    var p2 := ConvertFieldInPlace(p1, 4);
    var r := ConvertFieldInPlace(p2, 8);
    assert r[0..4] == p2[0..4] == p1[0..4];
    assert p1[4..8] == pCont[4..8];
    assert p2[8..12] == p1[8..12] == pCont[8..12];
    assert r[4..8] == p2[4..8];
    assert r[TABLE_CFG_MSG_SIZE..] == pCont[TABLE_CFG_MSG_SIZE..];
    r
  }

  /** The vnode request after `dnode` and `vnode` are converted in place. */
  function ConvertVpeerCfgInPlace(pCont: seq<byte>): (r: seq<byte>)
    requires VPEER_CFG_MSG_SIZE <= |pCont|
    ensures |r| == |pCont| && r[VPEER_CFG_MSG_SIZE..] == pCont[VPEER_CFG_MSG_SIZE..]
    ensures FromLittleEndian(r[0..4]) == ReadVpeerCfg(pCont).dnode
    ensures Int32OfUint32(FromLittleEndian(r[4..8])) == ReadVpeerCfg(pCont).vnode
  {
    var p1 := ConvertFieldInPlace(pCont, 0);
    var r := ConvertFieldInPlace(p1, 4);
    assert r[0..4] == p1[0..4];
    assert p1[4..8] == pCont[4..8];
    assert r[VPEER_CFG_MSG_SIZE..] == pCont[VPEER_CFG_MSG_SIZE..];
    r
  }

  // ---------------------------------------------------------------- request handlers

  /** The outcome of a request handler: the lookups it made, the one reply it sent,
      then the commands it sent, and the request buffer as the handler leaves it. */
  datatype CfgReply = CfgReply(lookups: seq<Lookup>, reply: Reply, commands: seq<Command>, pCont: seq<byte>) {
    /** The effects in the order they happen. */
    function Emitted(): (es: seq<Effect>)
      ensures |es| == |lookups| + 1 + |commands|
      ensures es[|lookups|] == Replied(reply)
    {
      seq(|lookups|, i requires 0 <= i < |lookups| => Looked(lookups[i]))
      + [Replied(reply)]
      + seq(|commands|, i requires 0 <= i < |commands| => Sent(commands[i]))
    }
  }

  /** Table-configuration request: decodes dnode, vnode and sid in place; a non-master
      redirects; otherwise looks the table up by position and replies `InvalidTable` on a
      miss, or `Success` followed by the table's create-table command on a hit. */
  function ProcessTableCfgMsg(st: Store, msgType: int8, pCont: seq<byte>, conn: Handle): (r: CfgReply)
    requires TABLE_CFG_MSG_SIZE <= |pCont|
    ensures r.reply.conn == conn && r.reply.msgType == ResponseType(msgType)
    ensures r.reply.code in {Redirect, InvalidTable, Success}
    ensures r.reply.code == Redirect <==> !st.sdbMaster
    ensures !st.sdbMaster ==> r.lookups == [] && r.commands == []
    ensures st.sdbMaster ==> r.lookups == [TableByPos(ReadTableCfg(pCont).dnode, ReadTableCfg(pCont).vnode, ReadTableCfg(pCont).sid)]
    ensures r.reply.code == Success <==>
              st.sdbMaster && (ReadTableCfg(pCont).dnode, ReadTableCfg(pCont).vnode, ReadTableCfg(pCont).sid) in st.tables
    ensures r.commands == if r.reply.code == Success
                          then SendCreateTableMsg(st, st.tables[(ReadTableCfg(pCont).dnode, ReadTableCfg(pCont).vnode, ReadTableCfg(pCont).sid)], NullHandle)
                          else []
    ensures |r.pCont| == |pCont| && r.pCont[TABLE_CFG_MSG_SIZE..] == pCont[TABLE_CFG_MSG_SIZE..]
    ensures FromLittleEndian(r.pCont[0..4]) == ReadTableCfg(pCont).dnode
    ensures Int32OfUint32(FromLittleEndian(r.pCont[4..8])) == ReadTableCfg(pCont).vnode
    ensures Int32OfUint32(FromLittleEndian(r.pCont[8..12])) == ReadTableCfg(pCont).sid
  {
    var cfg := ReadTableCfg(pCont);
    var decoded := ConvertTableCfgInPlace(pCont);
    var rsp := ResponseType(msgType);
    if !st.sdbMaster then
      CfgReply([], Reply(conn, rsp, Redirect), [], decoded)
    else
      var pos := (cfg.dnode, cfg.vnode, cfg.sid);
      if pos !in st.tables then
        CfgReply([TableByPos(cfg.dnode, cfg.vnode, cfg.sid)], Reply(conn, rsp, InvalidTable), [], decoded)
      else
        CfgReply([TableByPos(cfg.dnode, cfg.vnode, cfg.sid)], Reply(conn, rsp, Success),
                 SendCreateTableMsg(st, st.tables[pos], NullHandle), decoded)
  }

  /** Vnode-configuration request: a non-master redirects before touching the request;
      otherwise decodes dnode and vnode in place, looks up the vgroup, and replies
      `NotActiveVnode` on a miss, or `Success` followed by the vnode-peers command for
      that vnode on a hit. */
  function ProcessVnodeCfgMsg(st: Store, msgType: int8, pCont: seq<byte>, conn: Handle): (r: CfgReply)
    requires st.sdbMaster ==> VPEER_CFG_MSG_SIZE <= |pCont|
    ensures r.reply.conn == conn && r.reply.msgType == ResponseType(msgType)
    ensures r.reply.code in {Redirect, NotActiveVnode, Success}
    ensures r.reply.code == Redirect <==> !st.sdbMaster
    ensures !st.sdbMaster ==> r.lookups == [] && r.commands == [] && r.pCont == pCont
    ensures st.sdbMaster ==> r.lookups == [VgroupByVnode(ReadVpeerCfg(pCont).dnode, ReadVpeerCfg(pCont).vnode)]
    ensures r.reply.code == Success <==>
              st.sdbMaster && (ReadVpeerCfg(pCont).dnode, ReadVpeerCfg(pCont).vnode) in st.vgroups
    ensures st.sdbMaster ==>
              r.commands == if r.reply.code == Success
                            then SendVPeersMsg(st, st.vgroups[(ReadVpeerCfg(pCont).dnode, ReadVpeerCfg(pCont).vnode)],
                                               ReadVpeerCfg(pCont).vnode, NullHandle)
                            else []
    ensures |r.pCont| == |pCont|
    ensures st.sdbMaster ==> r.pCont[VPEER_CFG_MSG_SIZE..] == pCont[VPEER_CFG_MSG_SIZE..]
    ensures st.sdbMaster ==> FromLittleEndian(r.pCont[0..4]) == ReadVpeerCfg(pCont).dnode
                             && Int32OfUint32(FromLittleEndian(r.pCont[4..8])) == ReadVpeerCfg(pCont).vnode
  {
    var rsp := ResponseType(msgType);
    if !st.sdbMaster then
      CfgReply([], Reply(conn, rsp, Redirect), [], pCont)
    else
      var cfg := ReadVpeerCfg(pCont);
      var decoded := ConvertVpeerCfgInPlace(pCont);
      var pos := (cfg.dnode, cfg.vnode);
      if pos !in st.vgroups then
        CfgReply([VgroupByVnode(cfg.dnode, cfg.vnode)], Reply(conn, rsp, NotActiveVnode), [], decoded)
      else
        CfgReply([VgroupByVnode(cfg.dnode, cfg.vnode)], Reply(conn, rsp, Success),
                 SendVPeersMsg(st, st.vgroups[pos], cfg.vnode, NullHandle), decoded)
  }

  // ---------------------------------------------------------------- router

  /** Where an inbound message goes. The four acknowledgement handlers only trace. */
  datatype Route =
    | TableCfgHandler | VnodeCfgHandler
    | CreateTableRspHandler | RemoveTableRspHandler | VPeersRspHandler | FreeVnodeRspHandler
    | NoAction        // dnode-config and alter-stream acknowledgements
    | NotProcessed    // any other type: logged as an error and dropped

  datatype Routed = Routed(route: Route, effects: seq<Effect>, pCont: seq<byte>)

  predicate IsKnownType(t: int8) {
    t in {TSDB_MSG_TYPE_TABLE_CFG, TSDB_MSG_TYPE_VNODE_CFG,
          TSDB_MSG_TYPE_DNODE_CREATE_TABLE_RSP, TSDB_MSG_TYPE_DNODE_REMOVE_TABLE_RSP,
          TSDB_MSG_TYPE_DNODE_VPEERS_RSP, TSDB_MSG_TYPE_DNODE_FREE_VNODE_RSP,
          TSDB_MSG_TYPE_DNODE_CFG_RSP, TSDB_MSG_TYPE_ALTER_STREAM_RSP}
  }

  /** Entry point for every message a dnode sends to the management node. */
  function ProcessMsgFromDnode(st: Store, msgType: int8, pCont: seq<byte>, contLen: int32, handle: Handle, code: int32): (r: Routed)
    requires msgType == TSDB_MSG_TYPE_TABLE_CFG ==> TABLE_CFG_MSG_SIZE <= |pCont|
    requires msgType == TSDB_MSG_TYPE_VNODE_CFG && st.sdbMaster ==> VPEER_CFG_MSG_SIZE <= |pCont|
    ensures r.route == TableCfgHandler <==> msgType == TSDB_MSG_TYPE_TABLE_CFG
    ensures r.route == VnodeCfgHandler <==> msgType == TSDB_MSG_TYPE_VNODE_CFG
    ensures r.route == CreateTableRspHandler <==> msgType == TSDB_MSG_TYPE_DNODE_CREATE_TABLE_RSP
    ensures r.route == RemoveTableRspHandler <==> msgType == TSDB_MSG_TYPE_DNODE_REMOVE_TABLE_RSP
    ensures r.route == VPeersRspHandler <==> msgType == TSDB_MSG_TYPE_DNODE_VPEERS_RSP
    ensures r.route == FreeVnodeRspHandler <==> msgType == TSDB_MSG_TYPE_DNODE_FREE_VNODE_RSP
    ensures r.route == NoAction <==> msgType == TSDB_MSG_TYPE_DNODE_CFG_RSP || msgType == TSDB_MSG_TYPE_ALTER_STREAM_RSP
    ensures r.route == NotProcessed <==> !IsKnownType(msgType)
    ensures r.route == TableCfgHandler ==>
              r.effects == ProcessTableCfgMsg(st, msgType, pCont, handle).Emitted()
              && r.pCont == ProcessTableCfgMsg(st, msgType, pCont, handle).pCont
    ensures r.route == VnodeCfgHandler ==>
              r.effects == ProcessVnodeCfgMsg(st, msgType, pCont, handle).Emitted()
              && r.pCont == ProcessVnodeCfgMsg(st, msgType, pCont, handle).pCont
    ensures r.route != TableCfgHandler && r.route != VnodeCfgHandler ==> r.effects == [] && r.pCont == pCont
  {
    if msgType == TSDB_MSG_TYPE_TABLE_CFG then
      var out := ProcessTableCfgMsg(st, msgType, pCont, handle);
      Routed(TableCfgHandler, out.Emitted(), out.pCont)
    else if msgType == TSDB_MSG_TYPE_VNODE_CFG then
      var out := ProcessVnodeCfgMsg(st, msgType, pCont, handle);
      Routed(VnodeCfgHandler, out.Emitted(), out.pCont)
    else if msgType == TSDB_MSG_TYPE_DNODE_CREATE_TABLE_RSP then
      Routed(CreateTableRspHandler, [], pCont)
    else if msgType == TSDB_MSG_TYPE_DNODE_REMOVE_TABLE_RSP then
      Routed(RemoveTableRspHandler, [], pCont)
    else if msgType == TSDB_MSG_TYPE_DNODE_VPEERS_RSP then
      Routed(VPeersRspHandler, [], pCont)
    else if msgType == TSDB_MSG_TYPE_DNODE_FREE_VNODE_RSP then
      Routed(FreeVnodeRspHandler, [], pCont)
    else if msgType == TSDB_MSG_TYPE_DNODE_CFG_RSP || msgType == TSDB_MSG_TYPE_ALTER_STREAM_RSP then
      Routed(NoAction, [], pCont)
    else
      Routed(NotProcessed, [], pCont)
  }

  /** Master authority: on a node that is not the master, no inbound message leads to a
      metadata lookup or a command; at most one reply goes out, and it is a redirect to
      the type after the request's. */
  lemma NonMasterOnlyRedirects(st: Store, msgType: int8, pCont: seq<byte>, contLen: int32, handle: Handle, code: int32)
    requires !st.sdbMaster
    requires msgType == TSDB_MSG_TYPE_TABLE_CFG ==> TABLE_CFG_MSG_SIZE <= |pCont|
    ensures var r := ProcessMsgFromDnode(st, msgType, pCont, contLen, handle, code);
            |r.effects| <= 1
            && forall e :: e in r.effects ==> e == Replied(Reply(handle, ResponseType(msgType), Redirect))
  {
  }

  /** The effects of one request: a single reply with only lookups before it, and after
      it only commands, which a `Success` reply alone is followed by. */
  predicate RepliesBeforeCommands(es: seq<Effect>) {
    exists k :: 0 <= k < |es| && es[k].Replied?
      && (forall j :: 0 <= j < |es| && j != k ==> !es[j].Replied?)
      && (forall j :: 0 <= j < k ==> es[j].Looked?)
      && (forall j :: k < j < |es| ==> es[j].Sent? && es[k].reply.code == Success)
  }

  /** A handler result that sends commands only after a `Success` reply emits its
      effects in that order. */
  lemma EmittedOrder(out: CfgReply)
    requires out.commands != [] ==> out.reply.code == Success
    ensures RepliesBeforeCommands(out.Emitted())
  {
    var es := out.Emitted();
    var k := |out.lookups|;
    assert es[k].Replied?;
    assert forall j :: 0 <= j < k ==> es[j] == Looked(out.lookups[j]);
    assert forall j :: k < j < |es| ==> es[j] == Sent(out.commands[j - k - 1]);
  }

  /** Every configuration request, on the master or not, gets one reply with its
      lookups before it; every command the handler sends comes after the reply and only
      when the reply is `Success`. (The single reply and the lookups-first order follow
      from the shape of `CfgReply`; the commands' dependence on `Success` comes from the
      handlers' contracts.) */
  lemma RequestRepliesBeforeCommands(st: Store, msgType: int8, pCont: seq<byte>, contLen: int32, handle: Handle, code: int32)
    requires msgType == TSDB_MSG_TYPE_TABLE_CFG ==> TABLE_CFG_MSG_SIZE <= |pCont|
    requires msgType == TSDB_MSG_TYPE_VNODE_CFG && st.sdbMaster ==> VPEER_CFG_MSG_SIZE <= |pCont|
    requires msgType == TSDB_MSG_TYPE_TABLE_CFG || msgType == TSDB_MSG_TYPE_VNODE_CFG
    ensures RepliesBeforeCommands(ProcessMsgFromDnode(st, msgType, pCont, contLen, handle, code).effects)
  {
    if msgType == TSDB_MSG_TYPE_TABLE_CFG {
      EmittedOrder(ProcessTableCfgMsg(st, msgType, pCont, handle));
    } else {
      EmittedOrder(ProcessVnodeCfgMsg(st, msgType, pCont, handle));
    }
  }
}
