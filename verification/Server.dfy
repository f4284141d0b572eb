/** `ServerInstance`: the handlers change the object's fields in place, and each is
    proved against `ServerStep`. */
module ServerClass {
  import opened FileModel
  import opened Messages
  import opened ServerSpec

  class ServerInstance {
    const nodeId: NodeId
    var msgSeqNum: nat
    var disk: map<Name, seq<byte>>
    var fileFullname: Name
    var fileOpen: bool
    var updateMap: map<nat, Update>
    var nextUpdateId: nat
    var backup: Option<seq<byte>>
    /** Every packet handed to the network so far. */
    var sent: seq<Packet>

    function State(): Server
      reads this
    {
      Server(disk, fileFullname, updateMap, nextUpdateId, fileOpen)
    }

    ghost predicate Valid()
      reads this
    {
      State().Valid() && backup.None? && Numbered()
    }

    /** Packet `i` carries the server's id and the number `i` modulo 2^32. */
    ghost predicate Numbered()
      reads `sent, `msgSeqNum
    {
      && msgSeqNum == |sent| % 0x1_0000_0000
      && forall i | 0 <= i < |sent| :: sent[i].nodeId == nodeId && sent[i].seqNum == i % 0x1_0000_0000
    }

    /** One packet has gone out since, with this message. */
    predicate Sends(before: seq<Packet>, m: Message)
      reads `sent
    {
      |sent| == |before| + 1 && before <= sent && sent[|before|].msg == m
    }

    constructor (nodeId: NodeId)
      ensures Valid() && State() == EMPTY_SERVER && sent == [] && msgSeqNum == 0 && this.nodeId == nodeId
    {
      this.nodeId := nodeId;
      msgSeqNum, nextUpdateId := 0, 0;
      disk, updateMap := map[], map[];
      fileFullname, sent := [], [];
      fileOpen := false;
      backup := None;
    }

    method Send(m: Message)
      requires Numbered()
      modifies `sent, `msgSeqNum
      ensures Numbered()
      ensures sent == old(sent) + [Packet(nodeId, old(msgSeqNum), m)]
      ensures msgSeqNum == GetNextNum(old(msgSeqNum))
    {
      sent := sent + [Packet(nodeId, msgSeqNum, m)];
      msgSeqNum := GetNextNum(msgSeqNum);
    }

    method Reset()
      modifies `updateMap, `nextUpdateId
      ensures State() == old(State()).(updateMap := map[], nextUpdateId := 0)
    {
      updateMap := map[];
      nextUpdateId := 0;
    }

    method ResetBackup()
      modifies `backup
      ensures backup == None
    {
      backup := None;
    }

    method ProcWriteBlock(id: nat, u: Update)
      requires Valid()
      modifies `updateMap
      ensures Valid()
      ensures forall fd :: State() == ServerStep(old(State()), WriteBlock(fd, id, u)).server
    {
      if id !in updateMap {
        updateMap := updateMap[id := u];
      }
    }

    method ProcVote()
      requires Valid()
      modifies `nextUpdateId, `sent, `msgSeqNum
      ensures Valid()
      ensures forall fd :: State() == ServerStep(old(State()), Vote(fd)).server
      ensures sent == old(sent) + [Packet(nodeId, old(msgSeqNum), VoteAck(0, nextUpdateId))]
    {
      while true
        invariant State().Valid() && unchanged(`updateMap) && old(nextUpdateId) <= nextUpdateId
        invariant FirstMissing(updateMap, nextUpdateId) == FirstMissing(updateMap, old(nextUpdateId))
        invariant unchanged(`sent) && unchanged(`msgSeqNum)
        decreases |KeysFrom(updateMap, nextUpdateId)|
      {
        if nextUpdateId !in updateMap {
          break;
        }
        KeysFromDrops(updateMap, nextUpdateId);
        nextUpdateId := nextUpdateId + 1;
      }
      Send(VoteAck(0, nextUpdateId));
    }

    /** The replay loop of `procCommitMessage`. */
    method Replay()
      requires State().Valid() && fileFullname in disk
      modifies `disk
      ensures disk == old(disk)[fileFullname := ApplyAll(old(disk)[fileFullname], UpdateList(updateMap, nextUpdateId))]
    {
      ghost var us := UpdateList(updateMap, nextUpdateId);
      assert us[..0] == [];
      for i := 0 to nextUpdateId
        invariant fileFullname in disk
        invariant disk == old(disk)[fileFullname := ApplyAll(old(disk)[fileFullname], us[..i])]
      {
        assert us[..i + 1][..i] == us[..i] && us[..i + 1][i] == updateMap[i];
        disk := disk[fileFullname := WriteAt(disk[fileFullname], updateMap[i])];
      }
      assert us[..nextUpdateId] == us;
    }

    method ProcCommit()
      requires Valid()
      modifies this
      ensures Valid()
      ensures forall fd :: State() == ServerStep(old(State()), Commit(fd)).server
      ensures sent == old(sent) + [Packet(nodeId, old(msgSeqNum), CommitAck(0))]
    {
      if fileFullname !in disk {
        disk := disk[fileFullname := []];
      }
      fileOpen := true;
      // The read starts at the end of the file, so the backup keeps its zero bytes.
      if |disk[fileFullname]| > 0 {
        backup := Some(Zeros(|disk[fileFullname]|));
      }
      Replay();
      ResetBackup();
      Reset();
      Send(CommitAck(0));
    }

    /** The rollback branch needs a backup, and no handler leaves one behind. */
    method ProcAbort()
      requires Valid()
      modifies `updateMap, `nextUpdateId, `sent, `msgSeqNum
      ensures Valid()
      ensures forall fd :: State() == ServerStep(old(State()), Abort(fd)).server
      ensures sent == old(sent) + [Packet(nodeId, old(msgSeqNum), AbortAck(0))]
    {
      if backup.Some? {
        assert false;
      }
      Reset();
      Send(AbortAck(0));
    }

    method ProcClose()
      requires Valid()
      modifies `fileOpen, `sent, `msgSeqNum
      ensures Valid()
      ensures forall fd :: State() == ServerStep(old(State()), Close(fd)).server
      ensures sent == old(sent) + [Packet(nodeId, old(msgSeqNum), CloseAck(if updateMap != map[] then 1 else 0))]
    {
      if updateMap != map[] {
        Send(CloseAck(1));
        return;
      }
      if fileOpen {
        fileOpen := false;
      }
      Send(CloseAck(0));
    }

    /** One turn of `execute` on a packet that was received and not dropped. */
    method Handle(p: Packet)
      requires Valid()
      modifies this
      ensures Valid()
      ensures p.nodeId == nodeId ==> State() == old(State()) && sent == old(sent)
      ensures p.nodeId != nodeId ==>
                var r := ServerStep(old(State()), p.msg);
                && State() == r.server
                && sent == old(sent) + (if r.reply.Some? then [Packet(nodeId, old(msgSeqNum), r.reply.value)] else [])
      ensures p.nodeId != nodeId ==>
                match p.msg
                case Init => State() == old(State()) && Sends(old(sent), InitAck)
                case OpenFile(_, name) =>
                  State() == old(State()).(fileName := name) && Sends(old(sent), OpenFileAck(0))
                case WriteBlock(_, id, u) =>
                  && sent == old(sent)
                  && State() == old(State()).(updateMap := if id in old(updateMap) then old(updateMap)
                                                           else old(updateMap)[id := u])
                case Vote(_) =>
                  && State() == old(State()).(nextUpdateId := nextUpdateId) && IsFirstMissing(updateMap, nextUpdateId)
                  && Sends(old(sent), VoteAck(0, nextUpdateId))
                case Commit(_) => updateMap == map[] && nextUpdateId == 0 && Sends(old(sent), CommitAck(0))
                case Abort(_) =>
                  State() == old(State()).(updateMap := map[], nextUpdateId := 0) && Sends(old(sent), AbortAck(0))
                case Close(_) =>
                  && State() == old(State()).(fileOpen := old(fileOpen) && updateMap != map[])
                  && Sends(old(sent), CloseAck(if updateMap == map[] then 0 else 1))
                case _ => State() == old(State()) && sent == old(sent)
    {
      if p.nodeId == nodeId {
        return;
      }
      match p.msg
      case Init =>
        Send(InitAck);
      case OpenFile(_, name) =>
        fileFullname := name;
        Send(OpenFileAck(0));
      case WriteBlock(_, id, u) =>
        ProcWriteBlock(id, u);
      case Vote(_) =>
        ProcVote();
      case Commit(_) =>
        ProcCommit();
      case Abort(_) =>
        ProcAbort();
      case Close(_) =>
        ProcClose();
      case _ =>
    }
  }
}
