# Management node ↔ dnode control interface, in Dafny

This project models the part of a time-series database's management node (mnode)
that talks to its data nodes (dnodes), as implemented in
`src/mnode/src/mgmtDnodeInt.c`:

- **Dispatch gateway** (`gateway.dfy`, module `Gateway`). `mgmtSendMsgToDnode` and
  `mgmtSendRspToDnode` either forward their arguments to a registered direct-call
  function or stamp a 9-byte header in front of the payload (type at `pCont - 9`,
  code at `pCont - 8`, length at `pCont - 4`) and schedule the queue task, which reads
  the header back and hands the message to the dnode. The buffer is an
  `array<byte>`, the process-wide function pointers and the queue are fields of the
  class `Dispatcher`, and the methods state the new buffer contents as
  `WriteHeader(old(buf[..]), …)`. `HeaderRoundTrip` proves that what is written is what
  the queue task reads; `WriteHeader` proves that no payload byte changes.
- **Command senders, request handlers and router** (`handlers.dfy`, module
  `Handlers`). The table-configuration and vnode-configuration handlers are functions
  from the master flag, the metadata-store lookups and the request bytes to a record
  of what they do: the lookups made, the single reply, the commands sent after it,
  and the request buffer as the in-place `htonl` conversion leaves it.
  `ProcessMsgFromDnode` is the total case split over the inbound message types.
  `SendFreeVnodesMsg` is the loop that sends one free-vnode command per vgroup member.
- **Dynamic configuration** (`dynamic_cfg.dfy`, module `DynamicCfg`).
  `mgmtCfgDynamicOptions` is the function `DynamicOption` (its specification) and the
  method `CfgDynamicOptions`, which updates a `Dnode` object in place;
  `SendCfgDnodeMsg` is the entry point that looks the dnode up first.
- `wire.dfy` (module `Wire`) holds the C integer widths and their byte images;
  `mgmt_msg.dfy` (module `MgmtMsg`) the message types, result codes and effects.

Modelling choices:

- The host is little-endian, so `htonl`/`ntohl` are a byte swap (`Wire.ByteSwap`).
- Message-type numbers and error-code numbers are defined in headers that are not part
  of this model. Message types are `int8` constants that are pairwise distinct, with
  each response type one above its request. Result codes are a closed datatype
  `Code`. The only number used is `TSDB_CODE_SUCCESS = 0`.
- The inbound request structs are read as 32-bit network-order fields at offsets
  0, 4, 8 (table request: dnode, vnode, sid) and 0, 4 (vnode request: dnode, vnode).
- Collaborators are inputs: the master flag `sdbMaster`, `mgmtGetTableByPos` and
  `mgmtGetVgroupByVnode` (maps), and the `mgmtBuild*Msg` builders (functions returning
  `None` for NULL). Calls to `mgmtSetDnodeUnRemove`, `mgmtUpdateDnode`,
  `mgmtStartBalanceTimer` and `tsCfgDynamicOptions` are recorded as `CfgEffect`s.
- The tokenizer `paGetToken` is not modelled. The parser receives the first token of
  the configuration string (`option`) and the token after it (`value`). A
  fixed-length `strncasecmp` against a token followed by a delimiter is modelled as
  "the token starts with the keyword, ASCII case ignored" (`MatchesOption`).

Behaviour of the code that the proofs make explicit:

- `score` returns `InvalidSql` even when it applies the score (`DynamicOption`).
- `bandwidth` converts the token at the start of the string, which is the option token
  itself, not the token after it. `atoi` of a word is 0, so every `bandwidth` option
  succeeds and sets the bandwidth to 0 (`BandwidthAlwaysSetsZero`).
- A queued response carries no connection handle: the queue task delivers it with a
  null handle (`Dispatcher.SendRspThenDeliver`). A direct-call response does not
  forward the message type.
- The vnode-configuration handler checks the master flag before it converts the
  request in place, so a non-master leaves the request bytes unchanged. The
  table-configuration handler converts first (`ProcessTableCfgMsg`, `ProcessVnodeCfgMsg`).

Behaviours of the code that the model keeps as written:

- `mgmtCfgDynamicOptions` converts the option token itself for `bandwidth`, so `bandwidth <v>` does not depend on `v` (see above).
- `score` updates the score only when a value token follows it, and returns `InvalidSql` either way.
- `mgmtSendMsgToDnode` and `mgmtSendRspToDnode` ignore the result of `taosScheduleTask` (lines 59 and 74); the model appends to the queue unconditionally and surfaces no dispatch error.
- Nothing bounds `customScore`: `atoi` can produce a negative score. A bandwidth the parser changes always lies in `[0, 10000000)` (`CfgDynamicOptions`).
- A non-master answers a vnode-configuration request with `Redirect` before it reads the request, so a request shorter than its struct is answered there too; only the master needs the full 8 bytes.

## Model

| member | source | states |
|---|---|---|
| `Gateway.WriteHeader` | src/mnode/src/mgmtDnodeInt.c:56-58 | The header bytes lie wholly in the 9 bytes before `pCont`. Every payload byte and every byte before the header is unchanged. |
| `Gateway.HeaderRoundTrip` | src/mnode/src/mgmtDnodeInt.c:36-61 | The type, code and length the sender writes at `pCont-9`, `pCont-8`, `pCont-4` are exactly what the queue task reads back. |
| `Gateway.DeliverQueued` | src/mnode/src/mgmtDnodeInt.c:36-45 | The queue task hands the dnode the payload and handle of the task, with type, code and length decoded from the header bytes. |
| `Gateway.StampHeader` | src/mnode/src/mgmtDnodeInt.c:71-73 | Writing length, then code, then type in place leaves the buffer equal to `WriteHeader` of its old contents. |
| `Gateway.Dispatcher.SendMsgToDnode` | src/mnode/src/mgmtDnodeInt.c:47-61 | Direct mode: records one call with the same arguments, no byte written, nothing queued. Queued mode: stamps type, `TSDB_CODE_SUCCESS` and length, and appends one task with the handle. |
| `Gateway.Dispatcher.SendRspToDnode` | src/mnode/src/mgmtDnodeInt.c:63-76 | Direct mode: forwards connection, code, payload and length, writes no byte. Queued mode: stamps type, the caller's code and length, and queues a task without a handle. |
| `Gateway.Dispatcher.RunNextTask` | src/mnode/src/mgmtDnodeInt.c:36-45 | The consumer takes the oldest task (FIFO) and delivers it as the queue task decodes it. The queue keeps its invariant that every payload has 9 header bytes before it. |
| `Gateway.Dispatcher.SendMsgThenDeliver` | src/mnode/src/mgmtDnodeInt.c:47-61 | A queued command reaches the dnode with its own type and length, code 0 and its handle. Its payload is unchanged. |
| `Gateway.Dispatcher.SendRspThenDeliver` | src/mnode/src/mgmtDnodeInt.c:63-76 | A queued response reaches the dnode with its own type, code and length, and an unchanged payload, but with a null handle. |
| `Wire.ByteSwapInvolutive` | src/mnode/src/mgmtDnodeInt.c:80-82 | `ntohl(htonl(x)) == x` for every 32-bit word. |
| `MgmtMsg.ResponseType` | src/mnode/src/mgmtDnodeInt.c:87 | The reply type is the request type plus one, wrapped to `int8_t`. It is exactly `t + 1` below 127. |
| `Handlers.SendCreateTableMsg` | src/mnode/src/mgmtDnodeInt.c:159-166 | Exactly one create-table command when the builder succeeds, none when it returns NULL. The length is the built message's length field converted from network order. |
| `Handlers.SendRemoveTableMsg` | src/mnode/src/mgmtDnodeInt.c:168-175 | Exactly one remove-table command with the full message size when the builder succeeds, none otherwise. |
| `Handlers.SendVPeersMsg` | src/mnode/src/mgmtDnodeInt.c:181-188 | Exactly one vnode-peers command for that vgroup and vnode when the builder succeeds, none otherwise. |
| `Handlers.FreeVnodeBody` | src/mnode/src/mgmtDnodeInt.c:193-196 | The free-vnode field holds the vnode in network byte order. A dnode reading it through `ntohl` gets the vnode back. |
| `Handlers.SendOneFreeVnodeMsg` | src/mnode/src/mgmtDnodeInt.c:190-198 | One free-vnode command of the message's size that decodes to the given vnode. |
| `Handlers.SendFreeVnodesMsg` | src/mnode/src/mgmtDnodeInt.c:200-205 | Exactly `numOfVnodes` free-vnode commands. Command `i` decodes to member `i`'s vnode, so the commands follow index order. |
| `Handlers.NetField` | src/mnode/src/mgmtDnodeInt.c:80-82 | A field read through `ntohl` on a little-endian host is the big-endian value of its four bytes, that is, the word the dnode wrote in network order. |
| `Handlers.ConvertFieldInPlace` | src/mnode/src/mgmtDnodeInt.c:80-82 | `field = htonl(field)` reverses that field's four bytes and touches no other byte. Afterwards the field reads as the decoded value. |
| `Handlers.ConvertTableCfgInPlace` | src/mnode/src/mgmtDnodeInt.c:79-82 | After the in-place conversion, dnode, vnode and sid read as host words hold the decoded values. The rest of the buffer is unchanged. |
| `Handlers.ConvertVpeerCfgInPlace` | src/mnode/src/mgmtDnodeInt.c:108-110 | After the in-place conversion, dnode and vnode read as host words hold the decoded values. |
| `Handlers.ProcessTableCfgMsg` | src/mnode/src/mgmtDnodeInt.c:78-100 | There is exactly one reply, of type `msgType+1`. It is `Redirect` iff the node is not master, and then there is no lookup and no command. It is `InvalidTable` on a lookup miss, with no command. It is `Success` on a hit, followed by that table's create-table command. |
| `Handlers.ProcessVnodeCfgMsg` | src/mnode/src/mgmtDnodeInt.c:102-121 | A non-master replies `Redirect` with the request untouched, no lookup and no command, whatever the request's length. On the master, a vgroup miss replies `NotActiveVnode` only. A hit replies `Success`, then sends the vnode-peers command for the same vnode. |
| `Handlers.ProcessMsgFromDnode` | src/mnode/src/mgmtDnodeInt.c:139-157 | Each of the six handled types reaches exactly its own handler (both directions), a short vnode-configuration request on a non-master included. The dnode-config and alter-stream acknowledgements do nothing. Any other type is dropped: no handler, no effect, buffer unchanged. |
| `Handlers.NonMasterOnlyRedirects` | src/mnode/src/mgmtDnodeInt.c:85-106 | On a non-master, no inbound message causes a lookup or a command; at most one reply is sent, and it is a redirect. This holds for messages of any length, except that a table-configuration request must hold its 12-byte struct, which the handler converts before it checks the master flag. |
| `Handlers.EmittedOrder` | src/mnode/src/mgmtDnodeInt.c:85-121 | A handler result that has commands only after a `Success` reply emits its lookups, then one reply, then its commands. |
| `Handlers.RequestRepliesBeforeCommands` | src/mnode/src/mgmtDnodeInt.c:85-121 | Every configuration request, on the master or not, gets exactly one reply with the lookups before it; both follow from the handlers' result shape (one `reply` field, emitted after the lookups). Commands come only after it, and only when it is `Success`, which follows from the handlers' contracts. A table-configuration request must hold its 12-byte struct, and a vnode-configuration request on the master its 8-byte struct; a vnode-configuration request on a non-master may have any length. |
| `DynamicCfg.AtoiOfWord` | src/mnode/src/mgmtDnodeInt.c:226-228 | `atoi` of a token that starts with a letter is 0. |
| `DynamicCfg.DynamicOption` | src/mnode/src/mgmtDnodeInt.c:207-240 | Options are tried in the order unremove, score, bandwidth. `unremove` returns `Success`. `score` always returns `InvalidSql`; it sets the score and asks for a rebalance after 15 when a value token is present, and otherwise leaves the dnode unchanged. `bandwidth` returns `Success` and sets the field iff the converted token is in `[0, 10000000)`; otherwise it returns `InvalidSql` with the dnode unchanged. Any other option is not handled (-1) and changes nothing. |
| `DynamicCfg.BandwidthAlwaysSetsZero` | src/mnode/src/mgmtDnodeInt.c:225-236 | Because the value token is taken from the start of the string, every `bandwidth` option returns `Success` and sets the bandwidth to 0. |
| `DynamicCfg.OptionsExclusive` | src/mnode/src/mgmtDnodeInt.c:212-225 | No token matches two of the three options. |
| `DynamicCfg.CfgDynamicOptions` | src/mnode/src/mgmtDnodeInt.c:207-240 | The in-place update of the dnode record, its result and its calls agree with `DynamicOption`. A bandwidth it changes lies in `[0, 10000000)`. |
| `DynamicCfg.SendCfgDnodeMsg` | src/mnode/src/mgmtDnodeInt.c:242-279 | An unknown dnode address gives `NotConfigured`, with no parsing and no change. A handled option's code is returned unchanged. An unhandled option is passed to the local configuration and gives `Success`. |

## Left out

- `mgmtProcessDnodeStatusImp`: its whole body is commented out, so there is no behaviour to model; the vnode drop state machine is not reconstructed.
- The queue and timer machinery (`taosScheduleTask`, `taosTmrReset`) is an append to `Dispatcher.queue` and a consumer method; `rpcFreeCont` after delivery is not modelled.
- `Handlers.SendOneFreeVnodeMsg`: assumes `rpcMallocCont` succeeds; the NULL branch (nothing sent) is not modelled.
- The `#ifdef CLUSTER` path of `mgmtSendCfgDnodeMsg` (`taosBuildReqMsg`, the `NodeOffline` return and the malformed send call) is not modelled; the model takes the non-cluster branch.
- `mgmtSendAlterStreamMsg` only traces, and `mgmtInitDnodeIntImp` / `mgmtCleanUpDnodeIntImp` are empty; none is modelled.
- The four acknowledgement handlers only trace; the router records which one is reached (`Route`), nothing else.
- Logging (`mTrace`, `mError`, `mPrint`) and the `taosMsg` name table.
- `DynamicCfg.SendCfgDnodeMsg`: `inet_addr` is not modelled; the request carries the address as a 32-bit value.
- `DynamicCfg.DynamicOption`: `paGetToken` is not modelled. Its two tokens are inputs. Reading past the end of the string when `score` is the last token is not represented.
- `DynamicCfg.DynamicOption`: requires that `atoi` of the score value fits in 32 bits, because C leaves overflow undefined.
- `Handlers.ProcessTableCfgMsg`: requires the request to be at least as long as its struct; the source reads the fields without comparing `contLen`.
- `Handlers.ProcessVnodeCfgMsg`: on the master, requires the request to be at least as long as its struct, since lines 108-110 read the fields without comparing `contLen`; a non-master returns at lines 103-106 before reading, and the model accepts any length there.
- `Handlers.ProcessTableCfgMsg`: the create-table call at line 99 passes two of three arguments; the model sends it with a null handle. The same holds for the vnode-peers call at line 120.
- `Handlers.SendFreeVnodesMsg`: line 203 passes the pointer `vnodeGid + i` as the vnode; the model passes `vnodeGid[i].vnode`. `numOfVnodes` is a `nat`, and the ip-set the loop computes is not modelled, since no sender uses its ip-set argument.
- Handlers record replies as `Reply` values. The source passes a NULL payload, which on the queued path would have its header written before a NULL pointer; the gateway model requires 9 bytes in front of every queued payload and so does not represent that call.
- `MgmtMsg`: the numeric values of message types and error codes are not modelled (see above).
- Concurrency between the queue's consumer and producers is not modelled; the queue is a sequence in one object.
