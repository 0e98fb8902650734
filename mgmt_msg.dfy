/** Message types, result codes and the observable effects of the management node's
    dnode interface. */
module MgmtMsg {
  import opened Wire
  import opened Gateway

  // Message types exchanged with dnodes. Their numbering lives in the message header
  // file, which is not part of this model: the values below only keep the two
  // properties the code relies on, that they are pairwise distinct and that each
  // response type is its request type plus one.
  const TSDB_MSG_TYPE_DNODE_CREATE_TABLE: int8 := 9
  const TSDB_MSG_TYPE_DNODE_CREATE_TABLE_RSP: int8 := 10
  const TSDB_MSG_TYPE_DNODE_REMOVE_TABLE: int8 := 11
  const TSDB_MSG_TYPE_DNODE_REMOVE_TABLE_RSP: int8 := 12
  const TSDB_MSG_TYPE_DNODE_VPEERS: int8 := 13
  const TSDB_MSG_TYPE_DNODE_VPEERS_RSP: int8 := 14
  const TSDB_MSG_TYPE_DNODE_FREE_VNODE: int8 := 15
  const TSDB_MSG_TYPE_DNODE_FREE_VNODE_RSP: int8 := 16
  const TSDB_MSG_TYPE_DNODE_CFG: int8 := 17
  const TSDB_MSG_TYPE_DNODE_CFG_RSP: int8 := 18
  const TSDB_MSG_TYPE_ALTER_STREAM: int8 := 19
  const TSDB_MSG_TYPE_ALTER_STREAM_RSP: int8 := 20
  const TSDB_MSG_TYPE_TABLE_CFG: int8 := 21
  const TSDB_MSG_TYPE_TABLE_CFG_RSP: int8 := 22
  const TSDB_MSG_TYPE_VNODE_CFG: int8 := 23
  const TSDB_MSG_TYPE_VNODE_CFG_RSP: int8 := 24

  /** Result codes this interface produces (their numbers are not part of this model,
      except that `Success` is the 0 the gateway stamps). */
  datatype Code = Success | Redirect | InvalidTable | NotActiveVnode | NotConfigured | InvalidSql | NodeOffline

  /** A metadata-store query made by a request handler. */
  datatype Lookup =
    | TableByPos(dnode: uint32, vnode: int32, sid: int32)   // mgmtGetTableByPos
    | VgroupByVnode(dnode: uint32, vnode: int32)            // mgmtGetVgroupByVnode

  /** `mgmtSendRspToDnode(conn, msgType, code, NULL, 0)`. */
  datatype Reply = Reply(conn: Handle, msgType: int8, code: Code)

  /** `mgmtSendMsgToDnode(msgType, body, contLen, ahandle)`. */
  datatype Command = Command(msgType: int8, body: seq<byte>, contLen: int, ahandle: Handle)

  /** Everything a request handler does that can be observed, in emission order. */
  datatype Effect = Looked(query: Lookup) | Replied(reply: Reply) | Sent(command: Command)

  /** The type of the response to a request of type `t` (`t + 1`, converted to `int8_t`). */
  function ResponseType(t: int8): (r: int8)
    ensures t < 0x7f ==> r == t + 1
  {
    WrapInt8(t as int + 1)
  }
}
