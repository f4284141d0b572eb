/** The client's side of a phase as functions: what one received packet does, and what
    one call of `execute` does on an oracle of clock readings and received packets. */
module ClientSpec {
  import opened FileModel
  import opened Messages
  import opened Timer

  datatype Client = Client(
    numServers: nat,
    serverIds: set<NodeId>,
    updateMap: map<nat, Update>,
    updateId: nat,
    recvServerUpdateId: map<NodeId, nat>)
  {
    /** The cache holds exactly the updates below the counter. */
    ghost predicate Valid() {
      forall i: nat :: i in updateMap <==> i < updateId
    }

    function Reset(): Client {
      this.(updateMap := map[], updateId := 0, recvServerUpdateId := map[])
    }
  }

  /** `0`, `-1` and `1`. */
  datatype Ret = NormalReturn | ErrorReturn | Again

  /** The minimum that `procVoteAckMessage` computes, starting from the largest uint32. */
  predicate IsSmallest(m: map<NodeId, nat>, x: nat) {
    && x <= MAX_UINT32
    && (forall s | s in m :: x <= m[s])
    && (x == MAX_UINT32 || exists s | s in m :: m[s] == x)
  }

  lemma {:induction false} SmallestExists(m: map<NodeId, nat>)
    ensures exists x: nat :: IsSmallest(m, x)
    decreases |m|
  {
    if m == map[] {
      assert IsSmallest(m, MAX_UINT32);
    } else {
      var s :| s in m;
      var rest := map t | t in m && t != s :: m[t];
      assert rest.Keys == m.Keys - {s};
      assert |rest| == |rest.Keys| == |m.Keys| - 1;
      SmallestExists(rest);
      var y: nat :| IsSmallest(rest, y);
      var x := if m[s] < y then m[s] else y;
      assert m[s] == x || x == y;
      if x == y && y != MAX_UINT32 {
        var t :| t in rest && rest[t] == y;
        assert m[t] == x;
      }
      assert forall t | t in m && t != s :: t in rest && rest[t] == m[t];
      assert IsSmallest(m, x);
    }
  }

  ghost function Smallest(m: map<NodeId, nat>): (x: nat)
    ensures IsSmallest(m, x)
  {
    SmallestExists(m);
    var x: nat :| IsSmallest(m, x);
    x
  }

  lemma SmallestIsUnique(m: map<NodeId, nat>, x: nat, y: nat)
    requires IsSmallest(m, x) && IsSmallest(m, y)
    ensures x == y
  {
  }

  /** The blocks sent again: ids `from` up to `updateId - 1`. */
  ghost function Resend(c: Client, fd: nat, from: nat): (ms: seq<Message>)
    requires c.Valid()
    ensures |ms| == if from < c.updateId then c.updateId - from else 0
    ensures forall k | 0 <= k < |ms| :: from + k in c.updateMap
              && ms[k] == WriteBlock(fd, from + k, c.updateMap[from + k])
  {
    seq(if from < c.updateId then c.updateId - from else 0,
        k requires 0 <= k < (if from < c.updateId then c.updateId - from else 0) =>
          WriteBlock(fd, from + k, c.updateMap[from + k]))
  }

  /** What one packet does to a phase; `exit` is the return of `execute`, if it returns. */
  datatype Reaction = Reaction(client: Client, recv: set<NodeId>, resend: seq<Message>, exit: Option<Ret>)

  /** The test after every packet: a full set ends the phase. */
  function BreakIfFull(c: Client, recv: set<NodeId>): Reaction {
    Reaction(c, recv, [], if |recv| == c.numServers then Some(NormalReturn) else None)
  }

  ghost function OnVoteAck(c: Client, recv: set<NodeId>, fd: nat, from: NodeId, fileDesc: int, updateId: nat): Reaction
    requires c.Valid()
  {
    if from !in c.serverIds then BreakIfFull(c, recv)
    else if fileDesc < 0 then Reaction(c, recv, [], Some(ErrorReturn))
    else
      var r := recv + {from};
      var d := c.(recvServerUpdateId := c.recvServerUpdateId[from := updateId]);
      var smallest := Smallest(d.recvServerUpdateId);
      if |r| == c.numServers && smallest != c.updateId then
        Reaction(d, r, Resend(d, fd, smallest), Some(Again))
      else
        BreakIfFull(d, r)
  }

  /** A packet of any kind in a phase of any kind (`execute`, from the receive on). */
  ghost function OnPacket(c: Client, op: Op, recv: set<NodeId>, fd: nat, from: NodeId, m: Message): (r: Reaction)
    requires c.Valid()
    ensures r.client.Valid()
    ensures op != INIT_OP ==> r.client.serverIds == c.serverIds && r.client.numServers == c.numServers
  {
    if !MatchesOp(m, op) then Reaction(c, recv, [], None)
    else if op == INIT_OP then
      var full := |c.serverIds| >= c.numServers;
      Reaction(if full then c else c.(serverIds := c.serverIds + {from}), recv, [], None)
    else if op == VOTE_OP then OnVoteAck(c, recv, fd, from, m.fileDesc, m.updateId)
    else if from !in c.serverIds then BreakIfFull(c, recv)
    else if m.fileDesc < 0 then Reaction(c, recv, [], Some(ErrorReturn))
    else if op == CLOSE_OP && m.fileDesc == 1 then Reaction(c, recv, [], Some(Again))
    else BreakIfFull(c, recv + {from})
  }

  /** The return value once the loop has ended. */
  function Finish(c: Client, op: Op, recv: set<NodeId>): (ret: Ret)
    ensures ret != Again
  {
    if |if op == INIT_OP then c.serverIds else recv| < c.numServers then ErrorReturn else NormalReturn
  }

  /** One turn of the loop: the clock at its top, the clock after a send if there is one,
      and the packet received (dropped packets are not received). */
  datatype Tick = Tick(now: Time, afterSend: Time, packet: Option<Packet>)

  /** The last reading is past the deadline. */
  predicate Deadline(ticks: seq<Tick>, first: Time, timeout: nat) {
    ticks != [] && IsTimeOut(ticks[|ticks| - 1].now, first, timeout)
  }

  datatype Call = Call(me: NodeId, op: Op, fd: nat, name: Name, timeout: nat)

  /** The changing part of one call; `rounds` counts the requests it has sent. */
  datatype Progress = Progress(client: Client, recv: set<NodeId>, last: Time, rounds: nat, sent: seq<Message>)

  function SendRequest(call: Call, p: Progress, t: Tick): Progress {
    if IsTimeOut(t.now, p.last, SEND_MSG_INTERVAL) then
      p.(last := t.afterSend, rounds := p.rounds + 1, sent := p.sent + [Request(call.op, call.fd, call.name)])
    else
      p
  }

  ghost function Receive(call: Call, p: Progress, packet: Option<Packet>): (r: (Progress, Option<Ret>))
    requires p.client.Valid()
    ensures r.0.client.Valid()
  {
    if packet.None? || packet.value.nodeId == call.me then (p, None)
    else
      var a := OnPacket(p.client, call.op, p.recv, call.fd, packet.value.nodeId, packet.value.msg);
      (p.(client := a.client, recv := a.recv, sent := p.sent + a.resend), a.exit)
  }

  /** `ClientInstance::execute` from the top of its loop. */
  ghost function Execute(call: Call, first: Time, p: Progress, ticks: seq<Tick>): (r: (Progress, Ret))
    requires p.client.Valid() && Deadline(ticks, first, call.timeout)
    ensures r.0.client.Valid()
    decreases |ticks|
  {
    var q := SendRequest(call, p, ticks[0]);
    if IsTimeOut(ticks[0].now, first, call.timeout) then (q, Finish(q.client, call.op, q.recv))
    else
      var (next, exit) := Receive(call, q, ticks[0].packet);
      if exit.Some? then (next, exit.value) else Execute(call, first, next, ticks[1..])
  }

  /** A call entered with the given set, before its first turn. */
  function Start(c: Client, recv: set<NodeId>): Progress {
    Progress(c, recv, Time(0, 0), 0, [])
  }

  /** What one call of `execute` meets: its first clock reading and its turns. */
  datatype Oracle = Oracle(first: Time, ticks: seq<Tick>)

  /** The vote loop of `Commit`: `execute` again, with the same set, as long as it returns 1;
      no return if that is so for all the given calls. */
  ghost function VoteLoop(call: Call, c: Client, recv: set<NodeId>, rounds: seq<Oracle>)
        : (r: (Client, set<NodeId>, Option<Ret>))
    requires c.Valid() && forall o | o in rounds :: Deadline(o.ticks, o.first, call.timeout)
    ensures r.0.Valid() && r.2 != Some(Again)
    decreases |rounds|
  {
    if rounds == [] then (c, recv, None)
    else
      var (q, ret) := Execute(call, rounds[0].first, Start(c, recv), rounds[0].ticks);
      if ret == Again then VoteLoop(call, q.client, q.recv, rounds[1..]) else (q.client, q.recv, Some(ret))
  }

  /** What the calls of the vote loop send, one after another. */
  ghost function VoteSent(call: Call, c: Client, recv: set<NodeId>, rounds: seq<Oracle>): seq<Message>
    requires c.Valid() && forall o | o in rounds :: Deadline(o.ticks, o.first, call.timeout)
    decreases |rounds|
  {
    if rounds == [] then []
    else
      var (q, ret) := Execute(call, rounds[0].first, Start(c, recv), rounds[0].ticks);
      q.sent + if ret == Again then VoteSent(call, q.client, q.recv, rounds[1..]) else []
  }

  // -------------------------------------------------------------- one turn of `Execute`

  lemma ExecuteTurn(call: Call, first: Time, p: Progress, ticks: seq<Tick>)
    requires p.client.Valid() && Deadline(ticks, first, call.timeout)
    ensures ticks != []
    ensures var t, q := ticks[0], SendRequest(call, p, ticks[0]);
            if IsTimeOut(t.now, first, call.timeout) then
              Execute(call, first, p, ticks) == (q, Finish(q.client, call.op, q.recv))
            else
              var (next, exit) := Receive(call, q, t.packet);
              if exit.Some? then Execute(call, first, p, ticks) == (next, exit.value)
              else
                && Deadline(ticks[1..], first, call.timeout)
                && Execute(call, first, p, ticks) == Execute(call, first, next, ticks[1..])
  {
    hide Receive, IsTimeOut, Finish;
  }

  lemma VoteLoopTurn(call: Call, c: Client, recv: set<NodeId>, rounds: seq<Oracle>)
    requires c.Valid() && forall o | o in rounds :: Deadline(o.ticks, o.first, call.timeout)
    ensures rounds == [] ==> VoteLoop(call, c, recv, rounds) == (c, recv, None) && VoteSent(call, c, recv, rounds) == []
    ensures rounds != [] ==>
              var (q, ret) := Execute(call, rounds[0].first, Start(c, recv), rounds[0].ticks);
              if ret == Again then
                && VoteLoop(call, c, recv, rounds) == VoteLoop(call, q.client, q.recv, rounds[1..])
                && VoteSent(call, c, recv, rounds) == q.sent + VoteSent(call, q.client, q.recv, rounds[1..])
              else
                && VoteLoop(call, c, recv, rounds) == (q.client, q.recv, Some(ret))
                && VoteSent(call, c, recv, rounds) == q.sent
  {
    hide Execute, Deadline;
  }

  lemma SentOrNot(call: Call, p: Progress, t: Tick)
    ensures var q := SendRequest(call, p, t);
            && q.client == p.client && q.recv == p.recv
            && (if IsTimeOut(t.now, p.last, SEND_MSG_INTERVAL) then
                  q.last == t.afterSend && q.sent == p.sent + [Request(call.op, call.fd, call.name)]
                else q == p)
  {
  }

  lemma FinishByCount(c: Client, op: Op, recv: set<NodeId>)
    ensures Finish(c, op, recv) ==
              if |if op == INIT_OP then c.serverIds else recv| < c.numServers then ErrorReturn else NormalReturn
  {
  }

  lemma ReadOrNot(call: Call, p: Progress, packet: Option<Packet>)
    requires p.client.Valid()
    ensures var (q, exit) := Receive(call, p, packet);
            if packet.None? || packet.value.nodeId == call.me then q == p && exit.None?
            else
              var a := OnPacket(p.client, call.op, p.recv, call.fd, packet.value.nodeId, packet.value.msg);
              q.client == a.client && q.recv == a.recv && q.last == p.last && q.sent == p.sent + a.resend
                && exit == a.exit
  {
    hide OnPacket;
  }

  // ---------------------------------------------------------------- counting quorums

  lemma SubsetCardinality<T>(a: set<T>, b: set<T>)
    requires a <= b
    ensures |a| <= |b| && (|a| == |b| <==> a == b)
  {
    var rest := b - a;
    assert b == a + rest;
    assert |b| == |a| + |rest|;
  }

  /** Server `s` answered the phase's request with a descriptor that counts. */
  predicate Answered(op: Op, ticks: seq<Tick>, s: NodeId) {
    exists i | 0 <= i < |ticks| :: Counts(op, ticks[i].packet, s)
  }

  predicate CountsAs(op: Op, m: Message) {
    MatchesOp(m, op) && op != INIT_OP && m.fileDesc >= 0 && (op == CLOSE_OP ==> m.fileDesc != 1)
  }

  predicate Counts(op: Op, packet: Option<Packet>, s: NodeId) {
    packet.Some? && packet.value.nodeId == s && CountsAs(op, packet.value.msg)
  }

  lemma ReactionCounting(c: Client, op: Op, recv: set<NodeId>, fd: nat, from: NodeId, m: Message)
    requires c.Valid() && op != INIT_OP && recv <= c.serverIds && |c.serverIds| == c.numServers
    ensures var a := OnPacket(c, op, recv, fd, from, m);
            && (a.recv == recv || (a.recv == recv + {from} && from in c.serverIds && CountsAs(op, m)))
            && (a.exit == Some(NormalReturn) ==> a.recv == c.serverIds)
  {
    SubsetCardinality(recv, c.serverIds);
    if from in c.serverIds {
      SubsetCardinality(recv + {from}, c.serverIds);
    }
    if op == VOTE_OP && MatchesOp(m, op) {
      VoteAckCounting(c, recv, fd, from, m.fileDesc, m.updateId);
    }
    hide OnVoteAck, Smallest, IsSmallest;
  }

  lemma VoteAckCounting(c: Client, recv: set<NodeId>, fd: nat, from: NodeId, fileDesc: int, updateId: nat)
    requires c.Valid()
    ensures var a := OnVoteAck(c, recv, fd, from, fileDesc, updateId);
            && (a.recv == recv || (a.recv == recv + {from} && from in c.serverIds && fileDesc >= 0))
            && (a.exit == Some(NormalReturn) ==> |a.recv| == c.numServers)
  {
    hide Smallest, Resend, IsSmallest;
  }

  lemma PacketCounting(call: Call, p: Progress, packet: Option<Packet>)
    requires p.client.Valid() && call.op != INIT_OP
    requires p.recv <= p.client.serverIds && |p.client.serverIds| == p.client.numServers
    ensures var (q, exit) := Receive(call, p, packet);
            && q.client.serverIds == p.client.serverIds && q.client.numServers == p.client.numServers
            && p.recv <= q.recv <= p.client.serverIds
            && (forall s | s in q.recv - p.recv :: Counts(call.op, packet, s))
            && (exit == Some(NormalReturn) ==> q.recv == p.client.serverIds)
  {
    hide OnPacket, CountsAs;
    if packet.Some? {
      var from, m := packet.value.nodeId, packet.value.msg;
      ReactionCounting(p.client, call.op, p.recv, call.fd, from, m);
    }
  }

  lemma AnsweredLater(op: Op, ticks: seq<Tick>, s: NodeId)
    requires ticks != []
    ensures Counts(op, ticks[0].packet, s) || Answered(op, ticks[1..], s) ==> Answered(op, ticks, s)
  {
    if Answered(op, ticks[1..], s) {
      var i :| 0 <= i < |ticks[1..]| && Counts(op, ticks[1..][i].packet, s);
      assert ticks[i + 1] == ticks[1..][i];
    }
  }

  /** Counting is a quorum test: outside INIT the received set stays inside `serverIds`,
      everybody added to it answered, and the call returns normally only with all of it. */
  lemma {:induction false} QuorumByCounting(call: Call, first: Time, p: Progress, ticks: seq<Tick>)
    requires p.client.Valid() && Deadline(ticks, first, call.timeout) && call.op != INIT_OP
    requires p.recv <= p.client.serverIds && |p.client.serverIds| == p.client.numServers
    ensures var (q, ret) := Execute(call, first, p, ticks);
            && q.client.serverIds == p.client.serverIds
            && p.recv <= q.recv <= p.client.serverIds
            && (forall s | s in q.recv - p.recv :: Answered(call.op, ticks, s))
            && (ret == NormalReturn ==> q.recv == p.client.serverIds)
            && (ret == NormalReturn && p.recv == {} ==>
                  forall s | s in p.client.serverIds :: Answered(call.op, ticks, s))
    decreases |ticks|
  {
    var q := SendRequest(call, p, ticks[0]);
    if IsTimeOut(ticks[0].now, first, call.timeout) {
      SubsetCardinality(q.recv, q.client.serverIds);
    } else {
      PacketCounting(call, q, ticks[0].packet);
      var (next, exit) := Receive(call, q, ticks[0].packet);
      if exit.None? {
        QuorumByCounting(call, first, next, ticks[1..]);
      }
      var (last, ret) := Execute(call, first, p, ticks);
      forall s | s in last.recv - p.recv
        ensures Answered(call.op, ticks, s)
      {
        AnsweredLater(call.op, ticks, s);
      }
    }
  }

  /** INIT collects at most `numServers` ids and returns normally exactly with that many. */
  lemma {:induction false} InitCollectsServers(call: Call, first: Time, p: Progress, ticks: seq<Tick>)
    requires p.client.Valid() && Deadline(ticks, first, call.timeout) && call.op == INIT_OP
    requires |p.client.serverIds| <= p.client.numServers
    ensures var (q, ret) := Execute(call, first, p, ticks);
            && p.client.serverIds <= q.client.serverIds && |q.client.serverIds| <= q.client.numServers
            && q.client.numServers == p.client.numServers
            && (ret == NormalReturn <==> |q.client.serverIds| == q.client.numServers)
            && ret != Again
    decreases |ticks|
  {
    var q := SendRequest(call, p, ticks[0]);
    if !IsTimeOut(ticks[0].now, first, call.timeout) {
      var (next, exit) := Receive(call, q, ticks[0].packet);
      InitCollectsServers(call, first, next, ticks[1..]);
    }
  }

  // ------------------------------------------------- when does a vote imply agreement?

  /** What the check in `procVoteAckMessage` establishes. */
  predicate Agreed(c: Client) {
    c.recvServerUpdateId.Keys == c.serverIds && IsSmallest(c.recvServerUpdateId, c.updateId)
  }

  /** How `Commit` enters a vote call: the surviving set is the set of recorded answers. */
  predicate VoteEntry(c: Client, recv: set<NodeId>) {
    recv <= c.serverIds && |c.serverIds| == c.numServers && c.recvServerUpdateId.Keys == recv
  }

  lemma VoteAckKeepsEntry(c: Client, recv: set<NodeId>, fd: nat, from: NodeId, fileDesc: int, updateId: nat)
    requires c.Valid() && VoteEntry(c, recv) && (recv != c.serverIds || Agreed(c))
    ensures var a := OnVoteAck(c, recv, fd, from, fileDesc, updateId);
            && VoteEntry(a.client, a.recv)
            && a.client.updateMap == c.updateMap && a.client.updateId == c.updateId
            && (a.exit == None ==> a.recv != c.serverIds)
            && (a.exit == Some(NormalReturn) ==> Agreed(a.client))
            && (a.exit == Some(Again) ==> a.recv == c.serverIds && !Agreed(a.client))
  {
    if from !in c.serverIds {
      SubsetCardinality(recv, c.serverIds);
    } else if fileDesc >= 0 {
      var r := recv + {from};
      var m := c.recvServerUpdateId[from := updateId];
      assert m.Keys == r;
      SubsetCardinality(r, c.serverIds);
      if IsSmallest(m, c.updateId) {
        SmallestIsUnique(m, c.updateId, Smallest(m));
      }
    }
  }

  lemma VotePacket(call: Call, p: Progress, packet: Option<Packet>)
    requires p.client.Valid() && call.op == VOTE_OP && VoteEntry(p.client, p.recv)
    requires p.recv != p.client.serverIds || Agreed(p.client)
    ensures var (q, exit) := Receive(call, p, packet);
            && VoteEntry(q.client, q.recv)
            && q.client.updateMap == p.client.updateMap && q.client.updateId == p.client.updateId
            && (exit == None ==> q.recv != q.client.serverIds || Agreed(q.client))
            && (exit == Some(NormalReturn) ==> Agreed(q.client))
            && (exit == Some(Again) ==> q.recv == q.client.serverIds && !Agreed(q.client))
  {
    hide OnVoteAck, VoteEntry, Agreed;
    if packet.Some? && packet.value.msg.VoteAck? {
      var m := packet.value.msg;
      VoteAckKeepsEntry(p.client, p.recv, call.fd, packet.value.nodeId, m.fileDesc, m.updateId);
    }
  }

  lemma {:induction false} VoteFromPartialSet(call: Call, first: Time, p: Progress, ticks: seq<Tick>)
    requires p.client.Valid() && Deadline(ticks, first, call.timeout) && call.op == VOTE_OP
    requires VoteEntry(p.client, p.recv)
    requires p.recv != p.client.serverIds || Agreed(p.client)
    ensures var (q, ret) := Execute(call, first, p, ticks);
            && VoteEntry(q.client, q.recv)
            && q.client.updateMap == p.client.updateMap && q.client.updateId == p.client.updateId
            && (ret == NormalReturn ==> Agreed(q.client))
            && (ret == Again ==> q.recv == q.client.serverIds && !Agreed(q.client))
    decreases |ticks|
  {
    var q := SendRequest(call, p, ticks[0]);
    if IsTimeOut(ticks[0].now, first, call.timeout) {
      SubsetCardinality(q.recv, q.client.serverIds);
    } else {
      VotePacket(call, q, ticks[0].packet);
      var (next, exit) := Receive(call, q, ticks[0].packet);
      if exit.None? {
        VoteFromPartialSet(call, first, next, ticks[1..]);
      }
    }
  }

  /** One vote call entered this way can be trusted on every clock and every network. */
  ghost predicate VoteIsSound(call: Call, c: Client, recv: set<NodeId>)
    requires c.Valid()
  {
    forall first: Time, ticks: seq<Tick> | Deadline(ticks, first, call.timeout) ::
      var (q, ret) := Execute(call, first, Start(c, recv), ticks);
      ret == NormalReturn ==> Agreed(q.client)
  }

  /** A vote call's normal return implies agreement if and only if it was not entered
      with a full set left over from an unsuccessful round. */
  lemma VoteIsSoundIffSetNotFull(call: Call, c: Client, recv: set<NodeId>)
    requires c.Valid() && call.op == VOTE_OP && VoteEntry(c, recv)
    ensures VoteIsSound(call, c, recv) <==> recv != c.serverIds || Agreed(c)
  {
    if recv != c.serverIds || Agreed(c) {
      forall first: Time, ticks: seq<Tick> | Deadline(ticks, first, call.timeout)
        ensures var (q, ret) := Execute(call, first, Start(c, recv), ticks);
                ret == NormalReturn ==> Agreed(q.client)
      {
        VoteFromPartialSet(call, first, Start(c, recv), ticks);
      }
    } else {
      // The witness: nothing is received before the deadline.
      var first, now := Time(0, 0), Time(call.timeout, 0);
      var ticks := [Tick(now, now, None)];
      assert Deadline(ticks, first, call.timeout);
      var (q, ret) := Execute(call, first, Start(c, recv), ticks);
      assert q.client == c && ret == NormalReturn;
    }
  }

  /** The first round can be trusted; once a round has asked for blocks again, the set stays
      full and a later round may return normally without agreement. */
  lemma {:induction false} VoteLoopEntry(call: Call, c: Client, recv: set<NodeId>, rounds: seq<Oracle>)
    requires c.Valid() && forall o | o in rounds :: Deadline(o.ticks, o.first, call.timeout)
    requires call.op == VOTE_OP && rounds != [] && VoteEntry(c, recv) && recv != c.serverIds
    ensures var (q, ret) := Execute(call, rounds[0].first, Start(c, recv), rounds[0].ticks);
            && (ret == NormalReturn ==> Agreed(VoteLoop(call, c, recv, rounds).0))
            && (ret == Again ==> forall next: Oracle | Deadline(next.ticks, next.first, call.timeout)
                && next.ticks[0].packet == None && |next.ticks| == 1 ::
                  VoteLoop(call, c, recv, [rounds[0], next]).2 == Some(NormalReturn)
                    && !Agreed(VoteLoop(call, c, recv, [rounds[0], next]).0))
  {
    VoteFromPartialSet(call, rounds[0].first, Start(c, recv), rounds[0].ticks);
    var (q, ret) := Execute(call, rounds[0].first, Start(c, recv), rounds[0].ticks);
    if ret == Again {
      forall next: Oracle | Deadline(next.ticks, next.first, call.timeout) && next.ticks[0].packet == None
        && |next.ticks| == 1
        ensures VoteLoop(call, c, recv, [rounds[0], next]).2 == Some(NormalReturn)
        ensures !Agreed(VoteLoop(call, c, recv, [rounds[0], next]).0)
      {
        SilentRound(call, q.client, q.recv, next);
        hide Execute, Agreed, Deadline;
        assert [rounds[0], next][1..] == [next];
      }
    }
  }

  /** A round entered with a full set in which nothing arrives returns normally. */
  lemma SilentRound(call: Call, c: Client, recv: set<NodeId>, round: Oracle)
    requires c.Valid() && call.op == VOTE_OP && |recv| == c.numServers
    requires Deadline(round.ticks, round.first, call.timeout) && round.ticks[0].packet == None && |round.ticks| == 1
    ensures VoteLoop(call, c, recv, [round]) == (c, recv, Some(NormalReturn))
  {
    var (r, ret) := Execute(call, round.first, Start(c, recv), round.ticks);
    assert r.client == c && r.recv == recv && ret == NormalReturn;
  }

  // ---------------------------------------------------------------- how many requests

  /** Readings of a clock that never runs backwards, from `since` on. */
  predicate Monotone(since: Time, ticks: seq<Tick>)
    decreases |ticks|
  {
    since.Valid()
    && (ticks != [] ==>
          && ticks[0].now.Valid() && ticks[0].afterSend.Valid()
          && since.Micros() <= ticks[0].now.Micros() <= ticks[0].afterSend.Micros()
          && Monotone(ticks[0].afterSend, ticks[1..]))
  }

  /** On a monotone clock a call that has sent `rounds` requests in time sends at most
      one more than fit into the timeout at 199.001 ms each. */
  lemma {:induction false} RequestsAreSpaced(call: Call, first: Time, p: Progress, since: Time, ticks: seq<Tick>)
    requires p.client.Valid() && Deadline(ticks, first, call.timeout)
    requires first.Valid() && p.last.Valid() && Monotone(since, ticks)
    requires first.Micros() <= since.Micros()
    requires p.rounds > 0 ==>
              p.last.Micros() <= since.Micros() && first.Micros() + (p.rounds - 1) * 199_001 <= p.last.Micros()
    requires p.rounds > 1 ==> (p.rounds - 1) * 199_001 < 1000 * call.timeout
    ensures var (q, _) := Execute(call, first, p, ticks);
            q.rounds > 2 ==> (q.rounds - 2) * 199_001 < 1000 * call.timeout
    decreases |ticks|
  {
    var t := ticks[0];
    TimeOutIsWithinAMillisecond(t.now, p.last, SEND_MSG_INTERVAL);
    TimeOutIsWithinAMillisecond(t.now, first, call.timeout);
    var q := SendRequest(call, p, t);
    assert q.rounds > 1 && q.rounds != p.rounds ==> first.Micros() + (q.rounds - 1) * 199_001 <= t.now.Micros();
    if !IsTimeOut(t.now, first, call.timeout) {
      var (next, exit) := Receive(call, q, t.packet);
      if exit.None? {
        RequestsAreSpaced(call, first, next, t.afterSend, ticks[1..]);
      }
    }
  }

  // ------------------------------------------------------ what a phase does to the cache

  /** The same client except for the recorded vote answers. */
  predicate SameButAnswers(c: Client, d: Client) {
    d == c.(recvServerUpdateId := d.recvServerUpdateId)
  }

  lemma SameCache(c: Client, d: Client)
    requires SameButAnswers(c, d)
    ensures d.updateMap == c.updateMap && d.updateId == c.updateId
  {
  }

  lemma {:induction false} PlainPhaseKeepsCache(call: Call, first: Time, p: Progress, ticks: seq<Tick>)
    requires p.client.Valid() && Deadline(ticks, first, call.timeout) && call.op != INIT_OP && call.op != VOTE_OP
    ensures var (q, ret) := Execute(call, first, p, ticks);
            q.client == p.client && (call.op != CLOSE_OP ==> ret != Again)
    decreases |ticks|
  {
    var q := SendRequest(call, p, ticks[0]);
    if !IsTimeOut(ticks[0].now, first, call.timeout) {
      var (next, exit) := Receive(call, q, ticks[0].packet);
      assert next.client == q.client;
      if exit.None? {
        PlainPhaseKeepsCache(call, first, next, ticks[1..]);
      }
    }
  }

  lemma {:induction false} VotePhaseKeepsCache(call: Call, first: Time, p: Progress, ticks: seq<Tick>)
    requires p.client.Valid() && Deadline(ticks, first, call.timeout) && call.op == VOTE_OP
    ensures SameButAnswers(p.client, Execute(call, first, p, ticks).0.client)
    decreases |ticks|
  {
    var q := SendRequest(call, p, ticks[0]);
    if !IsTimeOut(ticks[0].now, first, call.timeout) {
      var (next, exit) := Receive(call, q, ticks[0].packet);
      assert SameButAnswers(q.client, next.client);
      if exit.None? {
        VotePhaseKeepsCache(call, first, next, ticks[1..]);
      }
    }
  }

  // --------------------------------------------------------------------- the calls of `client.c`

  /** One `execute` of a call, entered with the given set. */
  ghost function OnePhase(call: Call, c: Client, recv: set<NodeId>, o: Oracle): (r: (Progress, Ret))
    requires c.Valid() && Deadline(o.ticks, o.first, call.timeout)
    ensures r.0.client.Valid()
  {
    Execute(call, o.first, Start(c, recv), o.ticks)
  }

  /** What the phases of a Commit meet: each vote call, the COMMIT and the ABORT. */
  predicate CommitOracles(votes: seq<Oracle>, commit: Oracle, abort: Oracle) {
    && (forall o | o in votes :: Deadline(o.ticks, o.first, LONG_TIMEOUT))
    && Deadline(commit.ticks, commit.first, LONG_TIMEOUT) && Deadline(abort.ticks, abort.first, LONG_TIMEOUT)
  }

  /** The client after `OpenFile`, past its guards, and whether it returned a descriptor. */
  ghost function OpenCall(me: NodeId, fd: nat, name: Name, c: Client, o: Oracle): (r: (Client, bool))
    requires c.Valid() && Deadline(o.ticks, o.first, LONG_TIMEOUT)
    ensures r.0.Valid()
  {
    var (q, ret) := OnePhase(Call(me, OPEN_OP, fd, name, LONG_TIMEOUT), c, {}, o);
    (q.client, ret != ErrorReturn)
  }

  /** The client after `Abort`, past its guards, and whether it returned normally. */
  ghost function AbortCall(me: NodeId, fd: nat, c: Client, o: Oracle): (r: (Client, bool))
    requires c.Valid() && Deadline(o.ticks, o.first, LONG_TIMEOUT)
    ensures r.0.Valid()
  {
    var (q, ret) := OnePhase(Call(me, ABORT_OP, fd, [], LONG_TIMEOUT), c, {}, o);
    (q.client.Reset(), ret != ErrorReturn)
  }

  /** The same for `Commit`; it has not returned if the votes given do not end its loop. */
  ghost function CommitCall(me: NodeId, fd: nat, c: Client, votes: seq<Oracle>, commit: Oracle, abort: Oracle)
      : (r: (Client, Option<bool>))
    requires c.Valid() && CommitOracles(votes, commit, abort)
    ensures r.0.Valid()
  {
    var (d, recv, vote) := VoteLoop(Call(me, VOTE_OP, fd, [], LONG_TIMEOUT), c, {}, votes);
    if vote.None? then (d, None)
    else if vote != Some(NormalReturn) then (AbortCall(me, fd, d, abort).0, Some(false))
    else
      var (q, ret) := OnePhase(Call(me, COMMIT_OP, fd, [], LONG_TIMEOUT), d, {}, commit);
      if ret == ErrorReturn then (AbortCall(me, fd, q.client, abort).0, Some(false)) else (q.client.Reset(), Some(true))
  }

  /** The same for `CloseFile`. */
  ghost function CloseCall(me: NodeId, fd: nat, c: Client, close: Oracle, votes: seq<Oracle>, commit: Oracle,
                           abort: Oracle,
                           again: Oracle)
      : (r: (Client, Option<bool>))
    requires c.Valid() && CommitOracles(votes, commit, abort)
    requires Deadline(close.ticks, close.first, SHORT_TIMEOUT) && Deadline(again.ticks, again.first, SHORT_TIMEOUT)
    ensures r.0.Valid()
  {
    var call := Call(me, CLOSE_OP, fd, [], SHORT_TIMEOUT);
    var (p, first) := OnePhase(call, c, {}, close);
    if first != Again then (p.client, Some(first == NormalReturn))
    else
      var (d, committed) := CommitCall(me, fd, p.client, votes, commit, abort);
      if committed != Some(true) then (d, committed)
      else
        var (q, second) := OnePhase(call, d, p.recv, again);
        (q.client, Some(second != ErrorReturn))
  }
}
