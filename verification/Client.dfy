/** `ClientInstance` and the API functions of `client.c` that work on it. The network and
    the clock are oracles; what the object sends is appended to `sent`. */
module ClientClass {
  import opened FileModel
  import opened Messages
  import opened Timer
  import opened ClientSpec
  import opened Phases

  const NORMAL_RETURN := 0
  const ERROR_RETURN := -1

  function Payloads(ps: seq<Packet>): (ms: seq<Message>)
    ensures |ms| == |ps| && forall i | 0 <= i < |ps| :: ms[i] == ps[i].msg
  {
    seq(|ps|, i requires 0 <= i < |ps| => ps[i].msg)
  }

  /** The messages after the first `n` packets. */
  function Since(ps: seq<Packet>, n: nat): seq<Message> {
    if n <= |ps| then Payloads(ps)[n..] else []
  }

  lemma Continued(before: seq<Message>, ms: seq<Message>, ps: seq<Packet>)
    requires before + ms <= Payloads(ps)
    ensures Since(ps, |before|) == ms + Since(ps, |before + ms|)
    ensures Payloads(ps) == before + Since(ps, |before|) && before <= Payloads(ps)
  {
  }

  lemma SinceIs(before: seq<Message>, ms: seq<Message>, ps: seq<Packet>)
    requires Payloads(ps) == before + ms
    ensures Since(ps, |before|) == ms && before <= Payloads(ps)
  {
  }

  class ClientInstance {
    const nodeId: NodeId
    const numServers: nat
    var msgSeqNum: nat
    var serverIds: set<NodeId>
    var isFileOpen: bool
    var nextFd: nat
    var updateId: nat
    var updateMap: map<nat, Update>
    var recvServerUpdateId: map<NodeId, nat>
    var sent: seq<Packet>

    function State(): Client
      reads this
    {
      Client(numServers, serverIds, updateMap, updateId, recvServerUpdateId)
    }

    /** The cache is exact, INIT took no more ids than it needs, and packet `i` carries the number `i` modulo 2^32. */
    ghost predicate Valid()
      reads this
    {
      && State().Valid() && |serverIds| <= numServers
      && msgSeqNum == |sent| % (MAX_UINT32 + 1)
      && forall i | 0 <= i < |sent| :: sent[i].nodeId == nodeId && sent[i].seqNum == i % (MAX_UINT32 + 1)
    }

    lemma StateIsValid()
      requires Valid()
      ensures State().Valid() && |serverIds| <= numServers && |Payloads(sent)| == |sent|
    {
    }

    constructor (nodeId: NodeId, numServers: nat)
      ensures Valid() && State() == Client(numServers, {}, map[], 0, map[]) && sent == []
      ensures !isFileOpen && nextFd == 0 && this.nodeId == nodeId
    {
      this.nodeId, this.numServers := nodeId, numServers;
      msgSeqNum, nextFd, updateId := 0, 0, 0;
      serverIds, updateMap, recvServerUpdateId := {}, map[], map[];
      isFileOpen, sent := false, [];
    }

    method Send(m: Message)
      requires Valid()
      modifies `sent, `msgSeqNum
      ensures Valid()
      ensures Payloads(sent) == old(Payloads(sent)) + [m]
    {
      sent := sent + [Packet(nodeId, msgSeqNum, m)];
      msgSeqNum := GetNextNum(msgSeqNum);
    }

    method Reset()
      requires Valid()
      modifies `updateMap, `updateId, `recvServerUpdateId
      ensures Valid() && State() == old(State()).Reset()
    {
      updateMap := map[];
      updateId := 0;
      recvServerUpdateId := map[];
    }

    method SendWriteBlock(fd: nat, id: nat, u: Update, isStore: bool)
      requires Valid() && (isStore ==> id == updateId)
      modifies `sent, `msgSeqNum, `updateMap
      ensures Payloads(sent) == old(Payloads(sent)) + [Message.WriteBlock(fd, id, u)]
      ensures updateMap == if isStore then old(updateMap)[id := u] else old(updateMap)
      ensures msgSeqNum == |sent| % (MAX_UINT32 + 1)
      ensures forall i | 0 <= i < |sent| :: sent[i].nodeId == nodeId && sent[i].seqNum == i % (MAX_UINT32 + 1)
    {
      Send(Message.WriteBlock(fd, id, u));
      if isStore && id !in updateMap {
        updateMap := updateMap[id := u];
      }
    }

    /** The scan of `procVoteAckMessage` for the smallest answer. */
    method FindSmallest() returns (smallest: nat)
      ensures IsSmallest(recvServerUpdateId, smallest)
    {
      smallest := MAX_UINT32;
      var rest := recvServerUpdateId.Keys;
      while rest != {}
        invariant rest <= recvServerUpdateId.Keys && smallest <= MAX_UINT32
        invariant forall s | s in recvServerUpdateId && s !in rest :: smallest <= recvServerUpdateId[s]
        invariant smallest == MAX_UINT32 || exists s | s in recvServerUpdateId :: recvServerUpdateId[s] == smallest
        decreases rest
      {
        var s :| s in rest;
        if smallest > recvServerUpdateId[s] {
          smallest := recvServerUpdateId[s];
        }
        rest := rest - {s};
      }
    }

    method Retransmit(fd: nat, from: nat)
      requires Valid()
      modifies `sent, `msgSeqNum, `updateMap
      ensures Valid() && updateMap == old(updateMap)
      ensures Payloads(sent) == old(Payloads(sent)) + Resend(State(), fd, from)
    {
      ghost var blocks := Resend(State(), fd, from);
      var i := from;
      while i < updateId
        invariant Valid() && updateMap == old(updateMap) && from <= i
        invariant i - from <= |blocks| || updateId <= from
        invariant Payloads(sent) == old(Payloads(sent)) + (if from < updateId then blocks[..i - from] else [])
      {
        SendWriteBlock(fd, i, updateMap[i], false);
        assert blocks[..i + 1 - from] == blocks[..i - from] + [blocks[i - from]];
        i := i + 1;
      }
    }

    /** Returns -1, 0, or 1 when blocks were sent again. */
    method ProcVoteAck(recv: set<NodeId>, fd: nat, from: NodeId, fileDesc: int, id: nat)
          returns (r: set<NodeId>, ret: int)
      requires Valid()
      modifies `recvServerUpdateId, `sent, `msgSeqNum, `updateMap
      ensures Valid()
      ensures var a := OnVoteAck(old(State()), recv, fd, from, fileDesc, id);
              && State() == a.client && r == a.recv && Payloads(sent) == old(Payloads(sent)) + a.resend
              && ret == (if a.exit == Some(ErrorReturn) then -1 else if a.exit == Some(Again) then 1 else 0)
              && (a.exit.None? || a.exit == Some(NormalReturn) ==>
                    (a.exit == Some(NormalReturn) <==> |r| == numServers))
    {
      r, ret := recv, 0;
      if from !in serverIds {
        return;
      }
      if fileDesc < 0 {
        ret := -1;
        return;
      }
      r := r + {from};
      recvServerUpdateId := recvServerUpdateId[from := id];
      if |r| == numServers {
        var smallest := FindSmallest();
        SmallestIsUnique(recvServerUpdateId, smallest, Smallest(recvServerUpdateId));
        if smallest == updateId {
          return;
        }
        Retransmit(fd, smallest);
        ret := 1;
      }
    }

    /** One received packet, down to the test that breaks the loop. */
    method ProcPacket(op: Op, recv: set<NodeId>, fd: nat, p: Packet) returns (r: set<NodeId>, exit: Option<Ret>)
      requires Valid()
      modifies `serverIds, `recvServerUpdateId, `sent, `msgSeqNum, `updateMap
      ensures Valid()
      ensures var a := OnPacket(old(State()), op, recv, fd, p.nodeId, p.msg);
              State() == a.client && r == a.recv && exit == a.exit && Payloads(sent) == old(Payloads(sent)) + a.resend
    {
      r, exit := recv, None;
      if !MatchesOp(p.msg, op) {
        return;
      }
      if op == INIT_OP {
        if |serverIds| < numServers {
          serverIds := serverIds + {p.nodeId};
        }
        return;
      }
      if op == VOTE_OP {
        var ret;
        r, ret := ProcVoteAck(recv, fd, p.nodeId, p.msg.fileDesc, p.msg.updateId);
        if ret == -1 {
          exit := Some(ErrorReturn);
          return;
        } else if ret == 1 {
          exit := Some(Again);
          return;
        }
      } else if p.nodeId in serverIds {
        if p.msg.fileDesc < 0 {
          exit := Some(ErrorReturn);
          return;
        } else if op == CLOSE_OP && p.msg.fileDesc == 1 {
          exit := Some(Again);
          return;
        }
        r := r + {p.nodeId};
      }
      if |r| == numServers {
        exit := Some(NormalReturn);
      }
    }

    /** The retry, timeout and quorum loop, against `ClientSpec.Execute`. */
    method DoExecute(op: Op, timeout: nat, recv: set<NodeId>, fd: nat, name: Name, oracle: Oracle)
          returns (r: set<NodeId>, ret: Ret)
      requires Valid() && Deadline(oracle.ticks, oracle.first, timeout)
      modifies `serverIds, `recvServerUpdateId, `sent, `msgSeqNum, `updateMap
      ensures Valid()
      ensures var (q, x) := Execute(Call(nodeId, op, fd, name, timeout), oracle.first, Start(old(State()), recv),
                                    oracle.ticks);
              && State() == q.client && r == q.recv && ret == x && Payloads(sent) == old(Payloads(sent)) + q.sent
              && Since(sent, old(|sent|)) == q.sent
    {
      hide Execute, Receive, SendRequest, Finish, IsTimeOut, Request, Deadline, Payloads, OnPacket,
        ClientInstance.Valid;
      ghost var call := Call(nodeId, op, fd, name, timeout);
      ghost var p := Start(State(), recv);
      var ticks, first, last := oracle.ticks, oracle.first, Time(0, 0);
      StateIsValid();
      ghost var result := Execute(call, first, p, ticks);
      ghost var before := Payloads(sent);
      assert ticks[0..] == ticks;
      r := recv;
      var i := 0;
      while true
        invariant Valid() && 0 <= i <= |ticks|
        invariant p.client == State() && p.client.Valid() && p.recv == r && p.last == last
        invariant Payloads(sent) == before + p.sent
        invariant Deadline(ticks[i..], first, timeout) && Execute(call, first, p, ticks[i..]) == result
        decreases |ticks| - i
      {
        ExecuteTurn(call, first, p, ticks[i..]);
        var t := ticks[i];
        ghost var q := SendRequest(call, p, t);
        assert ticks[i..][0] == t && ticks[i..][1..] == ticks[i + 1..];
        SentOrNot(call, p, t);
        if IsTimeOut(t.now, last, SEND_MSG_INTERVAL) {
          assert (before + p.sent) + [Request(op, fd, name)] == before + (p.sent + [Request(op, fd, name)]);
          Send(Request(op, fd, name));
          last := t.afterSend;
        }
        assert Payloads(sent) == before + q.sent && State() == q.client;
        if IsTimeOut(t.now, first, timeout) {
          FinishByCount(q.client, op, r);
          ret := if |if op == INIT_OP then serverIds else r| < numServers then ErrorReturn else NormalReturn;
          return;
        }
        ghost var (next, x) := Receive(call, q, t.packet);
        ReadOrNot(call, q, t.packet);
        if t.packet.Some? && t.packet.value.nodeId != nodeId {
          var exit;
          ghost var a := OnPacket(q.client, op, r, fd, t.packet.value.nodeId, t.packet.value.msg);
          assert (before + q.sent) + a.resend == before + (q.sent + a.resend);
          r, exit := ProcPacket(op, r, fd, t.packet.value);
          if exit.Some? {
            ret := exit.value;
            return;
          }
        }
        p := next;
        i := i + 1;
      }
    }

    // ---------------------------------------------------------------------- client.c

    /** INIT takes the ids of the nodes whose INITACKs are read before the deadline, until enough
        are known. */
    method InitReplFs(oracle: Oracle) returns (ret: int)
      requires Valid() && Deadline(oracle.ticks, oracle.first, SHORT_TIMEOUT)
      modifies `serverIds, `recvServerUpdateId, `sent, `msgSeqNum, `updateMap
      ensures Valid() && State() == old(State()).(serverIds := serverIds)
      ensures var read := oracle.ticks[..LastTurn(oracle.first, SHORT_TIMEOUT, oracle.ticks)];
              && Collects(nodeId, numServers, old(serverIds), read, serverIds)
              && ret == (if |old(serverIds) + Ackers(nodeId, read)| >= numServers then NORMAL_RETURN else ERROR_RETURN)
      ensures ret == NORMAL_RETURN <==> |serverIds| == numServers
      ensures old(Payloads(sent)) <= Payloads(sent) && Only(Since(sent, old(|sent|)), Message.Init)
      ensures Asks(oracle) ==> Since(sent, old(|sent|)) != []
    {
      ghost var call := Call(nodeId, INIT_OP, 0, [], SHORT_TIMEOUT);
      InitCollectsServers(call, oracle.first, Start(State(), {}), oracle.ticks);
      InitCollects(call, oracle.first, Start(State(), {}), oracle.ticks);
      PlainTraffic(call, State(), {}, oracle);
      hide Execute, Collects, Ackers, LastTurn;
      var _, x := DoExecute(INIT_OP, SHORT_TIMEOUT, {}, 0, [], oracle);
      ret := if x == ErrorReturn then ERROR_RETURN else NORMAL_RETURN;
    }

    /** The name goes out under the descriptor that is returned, which is so exactly when every
        server has acknowledged it in time. */
    method OpenFile(fileName: Option<Name>, oracle: Oracle) returns (ret: int)
      requires Valid() && Deadline(oracle.ticks, oracle.first, LONG_TIMEOUT)
      modifies `serverIds, `recvServerUpdateId, `sent, `msgSeqNum, `updateMap, `nextFd, `isFileOpen
      ensures Valid() && State() == old(State()) && old(Payloads(sent)) <= Payloads(sent)
      ensures isFileOpen == (old(isFileOpen) || ret != ERROR_RETURN)
      ensures if fileName.None? || |fileName.value| >= 128 || |old(serverIds)| < numServers then
                ret == ERROR_RETURN && sent == old(sent) && nextFd == old(nextFd)
              else
                var call := Call(nodeId, OPEN_OP, old(nextFd), fileName.value, LONG_TIMEOUT);
                && OpenCall(nodeId, old(nextFd), fileName.value, old(State()), oracle) == (State(), ret != ERROR_RETURN)
                && ret == (if Completes(call, serverIds, serverIds, oracle.first, oracle.ticks) then old(nextFd)
                           else ERROR_RETURN)
                && nextFd == (if old(nextFd) == 0xFFFF_FFFF then 0 else old(nextFd) + 1)
                && Only(Since(sent, old(|sent|)), Message.OpenFile(old(nextFd), fileName.value))
                && (Asks(oracle) ==> Since(sent, old(|sent|)) != [])
      ensures ret != ERROR_RETURN ==> forall s | s in serverIds :: Answered(OPEN_OP, oracle.ticks, s)
    {
      if fileName.None? || |fileName.value| >= MAX_FILE_NAME_SIZE || |serverIds| < numServers {
        return ERROR_RETURN;
      }
      var fd := nextFd;
      nextFd := GetNextNum(nextFd);
      ghost var call := Call(nodeId, OPEN_OP, fd, fileName.value, LONG_TIMEOUT);
      FreshPhase(call, State(), oracle);
      hide Execute, Completes, Answered;
      var _, x := DoExecute(OPEN_OP, LONG_TIMEOUT, {}, fd, fileName.value, oracle);
      if x == ErrorReturn {
        return ERROR_RETURN;
      }
      isFileOpen := true;
      return fd;
    }

    /** The block is cached under the next id and multicast once. With `updateId` at its
        largest value the counter wraps to 0, and the cache is no longer `[0, updateId)`. */
    method WriteBlock(fd: int, buffer: Option<seq<byte>>, byteOffset: int, blockSize: int) returns (ret: int)
      requires Valid()
      requires buffer.Some? && 0 <= blockSize ==> blockSize <= |buffer.value|
      modifies `sent, `msgSeqNum, `updateMap, `updateId
      ensures if fd >= 0 && fd == nextFd - 1 && isFileOpen && |old(serverIds)| >= numServers
                 && 0 <= byteOffset <= 1_048_576 && buffer.Some? && 0 <= blockSize <= 512 then
                var id := old(updateId);
                var u := Update(byteOffset, buffer.value[..blockSize]);
                && ret == fd && Payloads(sent) == old(Payloads(sent)) + [Message.WriteBlock(fd, id, u)]
                && State() == old(State()).(updateMap := old(updateMap)[id := u],
                                            updateId := if id == 0xFFFF_FFFF then 0 else id + 1)
                && (id < 0xFFFF_FFFF ==> Valid())
              else
                Valid() && ret == ERROR_RETURN && State() == old(State()) && sent == old(sent)
    {
      if fd < 0 || fd != nextFd - 1 || byteOffset < 0 || byteOffset > MAX_FILE_SIZE || buffer.None?
         || blockSize < 0 || blockSize > MAX_BLOCK_LENGTH || !isFileOpen || |serverIds| < numServers
      {
        return ERROR_RETURN;
      }
      SendWriteBlock(fd, updateId, Update(byteOffset, buffer.value[..blockSize]), true);
      updateId := GetNextNum(updateId);
      return fd;
    }

    /** Only ABORTs go out, and whatever the servers answer, the cache is emptied; the return is
        normal exactly when all have answered in time. */
    method Abort(fd: int, oracle: Oracle) returns (ret: int)
      requires Valid() && Deadline(oracle.ticks, oracle.first, LONG_TIMEOUT)
      modifies `serverIds, `recvServerUpdateId, `sent, `msgSeqNum, `updateMap, `updateId
      ensures Valid() && serverIds == old(serverIds) && old(Payloads(sent)) <= Payloads(sent)
      ensures if fd >= 0 && fd == nextFd - 1 && isFileOpen && |old(serverIds)| >= numServers then
                var call := Call(nodeId, ABORT_OP, fd, [], LONG_TIMEOUT);
                && State() == old(State()).Reset()
                && AbortCall(nodeId, fd, old(State()), oracle) == (State(), ret == NORMAL_RETURN)
                && ret == (if Completes(call, serverIds, serverIds, oracle.first, oracle.ticks) then NORMAL_RETURN
                           else ERROR_RETURN)
                && Only(Since(sent, old(|sent|)), Message.Abort(fd))
                && (Asks(oracle) ==> Since(sent, old(|sent|)) != [])
              else
                ret == ERROR_RETURN && State() == old(State()) && sent == old(sent)
      ensures ret == NORMAL_RETURN ==> forall s | s in serverIds :: Answered(ABORT_OP, oracle.ticks, s)
    {
      if fd < 0 || fd != nextFd - 1 || !isFileOpen || |serverIds| < numServers {
        return ERROR_RETURN;
      }
      ghost var call := Call(nodeId, ABORT_OP, fd, [], LONG_TIMEOUT);
      FreshPhase(call, State(), oracle);
      hide Execute, Completes, Answered;
      var _, x := DoExecute(ABORT_OP, LONG_TIMEOUT, {}, fd, [], oracle);
      Reset();
      return if x == ErrorReturn then ERROR_RETURN else NORMAL_RETURN;
    }

    /** The vote loop of `Commit`, over the successive vote calls given. It sends VOTEs and
        blocks of the cache. */
    method VoteUntilDecided(fd: nat, votes: seq<Oracle>) returns (vote: Option<Ret>)
      requires Valid() && forall o | o in votes :: Deadline(o.ticks, o.first, LONG_TIMEOUT)
      modifies `serverIds, `recvServerUpdateId, `sent, `msgSeqNum, `updateMap
      ensures Valid() && SameButAnswers(old(State()), State())
      ensures var loop := VoteLoop(Call(nodeId, VOTE_OP, fd, [], LONG_TIMEOUT), old(State()), {}, votes);
              vote == loop.2 && State() == loop.0
      ensures old(Payloads(sent)) <= Payloads(sent) && VotesAndBlocks(Since(sent, old(|sent|)), fd, updateMap)
      ensures Since(sent, old(|sent|)) == VoteSent(Call(nodeId, VOTE_OP, fd, [], LONG_TIMEOUT), old(State()), {}, votes)
      ensures votes != [] && Asks(votes[0]) ==> BeginsWith(Since(sent, old(|sent|)), Message.Vote(fd))
    {
      assert |Payloads(sent)| == |sent|;
      hide Execute, VoteLoop, VoteSent, VotesAndBlocks, Asks, Deadline, ClientInstance.Valid, Since,
        Payloads, SameButAnswers, BeginsWith;
      StateIsValid();
      ghost var call, p0, c := Call(nodeId, VOTE_OP, fd, [], LONG_TIMEOUT), Payloads(sent), State();
      ghost var d, said: seq<Message>, rest := c, [], votes;
      var recv := {};
      NothingSent(fd, c.updateMap);
      for i := 0 to |votes|
        invariant Valid() && State() == d && d.Valid() && SameButAnswers(c, d)
        invariant rest == votes[i..] && forall o | o in rest :: Deadline(o.ticks, o.first, LONG_TIMEOUT)
        invariant VoteLoop(call, c, {}, votes) == VoteLoop(call, d, recv, rest)
        invariant VoteSent(call, c, {}, votes) == said + VoteSent(call, d, recv, rest)
        invariant Payloads(sent) == p0 + said && VotesAndBlocks(said, fd, c.updateMap)
        invariant if i == 0 then said == [] else Asks(votes[0]) ==> BeginsWith(said, Message.Vote(fd))
      {
        VoteTurn(call, c, d, recv, rest, said);
        var x;
        ghost var q := Execute(call, rest[0].first, Start(d, recv), rest[0].ticks).0;
        Joined(p0, said, q.sent);
        d, said, rest := q.client, said + q.sent, rest[1..];
        recv, x := DoExecute(VOTE_OP, LONG_TIMEOUT, recv, fd, [], votes[i]);
        SinceIs(p0, said, sent);
        SameCache(c, d);
        if x != Again {
          return Some(x);
        }
      }
      VoteLoopTurn(call, d, recv, rest);
      SinceIs(p0, said, sent);
      SameCache(c, d);
      return None;
    }

    /** `votes` are the successive vote calls; with fewer than the loop needs there is no
        return yet. VOTEs and blocks go out first; COMMITs only after a vote call has returned
        normally; ABORTs, at the end, exactly in the calls that fail. The return is normal
        exactly when the vote was and all servers have acknowledged the COMMIT in time. */
    method Commit(fd: int, votes: seq<Oracle>, commit: Oracle, abort: Oracle) returns (ret: Option<int>)
      requires Valid() && CommitOracles(votes, commit, abort)
      modifies `serverIds, `recvServerUpdateId, `sent, `msgSeqNum, `updateMap, `updateId
      ensures Valid() && serverIds == old(serverIds) && old(Payloads(sent)) <= Payloads(sent)
      ensures if fd >= 0 && fd == nextFd - 1 && isFileOpen && |old(serverIds)| >= numServers then
                && CommitCall(nodeId, fd, old(State()), votes, commit, abort) == (State(), Outcome(ret))
                && CommitDoes(nodeId, fd, old(State()), votes, commit, abort, State(), Outcome(ret),
                              Since(sent, old(|sent|)))
                && (ret.Some? ==> ret.value == NORMAL_RETURN || ret.value == ERROR_RETURN)
              else
                ret == Some(ERROR_RETURN) && State() == old(State()) && sent == old(sent)
      ensures ret == Some(NORMAL_RETURN) ==> forall s | s in serverIds :: Answered(COMMIT_OP, commit.ticks, s)
    {
      hide VoteLoop, VoteSent, Execute, Answered, Deadline, Completes, Asks, CommitDoes, VotesAndBlocks, Only, Payloads,
        Since, CommitCall, AbortCall, BeginsWith, Open, FindsUpdates, Client.Valid;
      if fd < 0 || fd != nextFd - 1 || !isFileOpen || |serverIds| < numServers {
        return Some(ERROR_RETURN);
      }
      StateIsValid();
      ghost var p0, c := Payloads(sent), State();
      var vote := VoteUntilDecided(fd, votes);
      ghost var voted := Since(sent, |p0|);
      NothingSent(fd, updateMap);
      Continued(p0, [], sent);
      if vote.None? {
        assert voted + [] + [] == voted;
        CommitDone(nodeId, fd, c, votes, commit, abort, State(), None, [], []);
        return None;
      } else if vote.value != NormalReturn {
        var _ := Abort(fd, abort);
        Continued(p0, voted, sent);
        assert voted + [] == voted;
        CommitDone(nodeId, fd, c, votes, commit, abort, State(), Some(false), [], Since(sent, |p0 + voted|));
        return Some(ERROR_RETURN);
      }
      StateIsValid();
      FreshPhase(Call(nodeId, COMMIT_OP, fd, [], LONG_TIMEOUT), State(), commit);
      var _, x := DoExecute(COMMIT_OP, LONG_TIMEOUT, {}, fd, [], commit);
      ghost var commits := Since(sent, |p0 + voted|);
      Continued(p0, voted, sent);
      if x == ErrorReturn {
        var _ := Abort(fd, abort);
        Continued(p0, voted + commits, sent);
        ghost var aborts := Since(sent, |p0 + (voted + commits)|);
        CommitDone(nodeId, fd, c, votes, commit, abort, State(), Some(false), commits, aborts);
        return Some(ERROR_RETURN);
      }
      Reset();
      assert voted + commits + [] == voted + commits;
      CommitDone(nodeId, fd, c, votes, commit, abort, State(), Some(true), commits, []);
      return Some(NORMAL_RETURN);
    }

    /** A normal return closes the file. Either every server answered the first pass with 0
        and nothing was committed, or the first pass found updates, a Commit inside the call
        emptied the cache, and the second pass, with the set of the first, ended without an
        error. CLOSEs go out first, and nothing else unless a known server has answered 1; no
        ABORT in a call that returns normally. */
    method CloseFile(fd: int, close: Oracle, votes: seq<Oracle>, commit: Oracle, abort: Oracle, again: Oracle)
          returns (ret: Option<int>)
      requires Valid() && CommitOracles(votes, commit, abort)
      requires Deadline(close.ticks, close.first, SHORT_TIMEOUT) && Deadline(again.ticks, again.first, SHORT_TIMEOUT)
      modifies `serverIds, `recvServerUpdateId, `sent, `msgSeqNum, `updateMap, `updateId, `isFileOpen
      ensures Valid() && serverIds == old(serverIds) && old(Payloads(sent)) <= Payloads(sent)
      ensures isFileOpen == (old(isFileOpen) && ret != Some(NORMAL_RETURN))
      ensures if fd >= 0 && fd == nextFd - 1 && old(isFileOpen) && |old(serverIds)| >= numServers then
                var ms, call := Since(sent, old(|sent|)), Call(nodeId, CLOSE_OP, fd, [], SHORT_TIMEOUT);
                var calm := Completes(call, serverIds, serverIds, close.first, close.ticks);
                var found := FindsUpdates(call, serverIds, serverIds, close.first, close.ticks);
                var long := Call(nodeId, VOTE_OP, fd, [], LONG_TIMEOUT);
                var vote, voted := VoteLoop(long, old(State()), {}, votes).2, VoteSent(long, old(State()), {}, votes);
                var done := Completes(long.(op := COMMIT_OP), serverIds, serverIds, commit.first, commit.ticks);
                var committed := if vote.None? then None else Some(vote == Some(NormalReturn) && done);
                && CloseCall(nodeId, fd, old(State()), close, votes, commit, abort, again) == (State(), Outcome(ret))
                && (!found ==> ret == Some(if calm then NORMAL_RETURN else ERROR_RETURN) && State() == old(State()))
                && (found && ret.Some? ==> State() == old(State()).Reset())
                && (found && committed != Some(true) ==> Outcome(ret) == committed)
                && (found && committed == Some(true) ==>
                      ret == Some(if SecondPassEnds(call, serverIds, close, again) then NORMAL_RETURN
                                  else ERROR_RETURN))
                && CloseSends(ms, fd, old(updateMap), found, voted, vote, committed, close, commit, abort, again)
              else
                ret == Some(ERROR_RETURN) && State() == old(State()) && sent == old(sent)
      ensures ret == Some(NORMAL_RETURN) ==>
                || (State() == old(State()) && forall s | s in serverIds :: Answered(CLOSE_OP, close.ticks, s))
                || (&& State() == old(State()).Reset()
                    && (forall s | s in serverIds :: Answered(COMMIT_OP, commit.ticks, s))
                    && var call := Call(nodeId, CLOSE_OP, fd, [], SHORT_TIMEOUT);
                       var first := Execute(call, close.first, Start(old(State()), {}), close.ticks);
                       && first.1 == Again
                       && Execute(call, again.first, Start(State(), first.0.recv), again.ticks).1 != ErrorReturn)
    {
      hide VoteLoop, VoteSent, Execute, Answered, Deadline, Completes, FindsUpdates, Asks, CommitSends, CloseSends,
        Only, Open, SecondPassEnds;
      if fd < 0 || fd != nextFd - 1 || !isFileOpen || |serverIds| < numServers {
        return Some(ERROR_RETURN);
      }
      ghost var p0, before, call := Payloads(sent), State(), Call(nodeId, CLOSE_OP, fd, [], SHORT_TIMEOUT);
      NothingSent(fd, updateMap);
      FreshPhase(call, State(), close);
      var recv, x := DoExecute(CLOSE_OP, SHORT_TIMEOUT, {}, fd, [], close);
      ghost var p1, closes := Payloads(sent), Since(sent, |p0|);
      ghost var long := Call(nodeId, VOTE_OP, fd, [], LONG_TIMEOUT);
      ghost var vote, voted := VoteLoop(long, State(), {}, votes).2, VoteSent(long, State(), {}, votes);
      ghost var done := Completes(long.(op := COMMIT_OP), serverIds, serverIds, commit.first, commit.ticks);
      ghost var ok := if vote.None? then None else Some(vote == Some(NormalReturn) && done);
      if x == Again {
        var committed := Commit(fd, votes, commit, abort);
        ghost var p2, inner := Payloads(sent), Since(sent, |p1|);
        Parts(p0, p1, p2);
        if committed != Some(NORMAL_RETURN) {
          assert closes + inner + [] == closes + inner;
          CloseSent(closes, inner, [], fd, old(updateMap), voted, vote, ok, close, commit, abort, again);
          return committed;
        }
        StateIsValid();
        PlainPhaseKeepsCache(call, again.first, Start(State(), recv), again.ticks);
        SecondPass(call, before, State(), recv, close, again);
        PlainTraffic(call, State(), recv, again);
        recv, x := DoExecute(CLOSE_OP, SHORT_TIMEOUT, recv, fd, [], again);
        Parts(p0, p2, Payloads(sent));
        CloseSent(closes, inner, Since(sent, |p2|), fd, old(updateMap), voted, vote, ok, close, commit, abort, again);
      } else {
        ClosesSent(closes, fd, old(updateMap), voted, vote, ok, close, commit, abort, again);
      }
      if x == ErrorReturn {
        return Some(ERROR_RETURN);
      }
      isFileOpen := false;
      return Some(NORMAL_RETURN);
    }
  }

  /** Whether a call has returned, and how. */
  function Outcome(ret: Option<int>): Option<bool> {
    if ret.None? then None else Some(ret.value == NORMAL_RETURN)
  }
}
