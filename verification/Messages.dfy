/** The thirteen message kinds of `network.h`, without the header fields (`nodeId`,
    `seqNum`), which no handler uses to order or reject a message. */
module Messages {
  import opened FileModel

  type NodeId = nat
  type Name = seq<byte>

  datatype Option<+T> = None | Some(value: T)

  const MAX_UINT32: nat := 0xFFFF_FFFF
  const MAX_BLOCK_LENGTH := 512
  const MAX_FILE_SIZE := 1048576
  const MAX_FILE_NAME_SIZE := 128

  /** The `*_OP` codes of `clientInstance.h`. */
  datatype Op = INIT_OP | OPEN_OP | VOTE_OP | COMMIT_OP | ABORT_OP | CLOSE_OP

  datatype Message =
    | Init
    | InitAck
    | OpenFile(fileId: nat, filename: Name)
    | OpenFileAck(fileDesc: int)
    | WriteBlock(fileId: nat, updateId: nat, update: Update)
    | Vote(fileId: nat)
    | VoteAck(fileDesc: int, updateId: nat)
    | Commit(fileId: nat)
    | CommitAck(fileDesc: int)
    | Abort(fileId: nat)
    | AbortAck(fileDesc: int)
    | Close(fileId: nat)
    | CloseAck(fileDesc: int)

  /** A message with its header, as it travels. */
  datatype Packet = Packet(nodeId: NodeId, seqNum: nat, msg: Message)

  /** `getNextNum`: the successor of an unsigned 32-bit number, wrapping to zero. */
  function GetNextNum(num: nat): nat {
    if num == MAX_UINT32 then 0 else num + 1
  }

  /** `isRecvMsgMatchCurrOp`: the only acknowledgement kind a phase reads. */
  predicate MatchesOp(m: Message, op: Op) {
    match op
    case INIT_OP => m.InitAck?
    case OPEN_OP => m.OpenFileAck?
    case VOTE_OP => m.VoteAck?
    case COMMIT_OP => m.CommitAck?
    case ABORT_OP => m.AbortAck?
    case CLOSE_OP => m.CloseAck?
  }

  /** The request a phase repeats. */
  function Request(op: Op, fd: nat, name: Name): Message {
    match op
    case INIT_OP => Init
    case OPEN_OP => OpenFile(fd, name)
    case VOTE_OP => Vote(fd)
    case COMMIT_OP => Commit(fd)
    case ABORT_OP => Abort(fd)
    case CLOSE_OP => Close(fd)
  }
}
