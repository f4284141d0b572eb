/** The repair measure of a vote phase: how many updates the servers are known to lack. */
module Measure {
  import opened Messages
  import opened ClientSpec
  import opened Protocol
  import opened Invariant
  import opened Reachability
  import opened Theorems

  /** The sum of `n - m[s]` over the servers with a recorded answer. */
  ghost function Deficit(m: map<NodeId, nat>, n: nat): int
    decreases |m|
  {
    if m == map[] then 0
    else
      var s :| s in m;
      assert (m - {s}).Keys == m.Keys - {s};
      n - m[s] + Deficit(m - {s}, n)
  }

  /** Any server's share can be taken out first. */
  lemma {:induction false} DeficitSplit(m: map<NodeId, nat>, n: nat, s: NodeId)
    requires s in m
    ensures Deficit(m, n) == n - m[s] + Deficit(m - {s}, n)
    decreases |m|
  {
    var t :| t in m && Deficit(m, n) == n - m[t] + Deficit(m - {t}, n);
    if t != s {
      assert (m - {t}).Keys == m.Keys - {t} && (m - {s}).Keys == m.Keys - {s};
      DeficitSplit(m - {t}, n, s);
      DeficitSplit(m - {s}, n, t);
      assert m - {t} - {s} == m - {s} - {t};
    }
  }

  lemma DeficitUpdate(m: map<NodeId, nat>, n: nat, s: NodeId, v: nat)
    requires s in m
    ensures Deficit(m[s := v], n) == Deficit(m, n) - (v - m[s])
  {
    DeficitSplit(m, n, s);
    DeficitSplit(m[s := v], n, s);
    assert m[s := v] - {s} == m - {s};
  }

  lemma {:induction false} DeficitIsZero(m: map<NodeId, nat>, n: nat)
    requires forall s | s in m :: m[s] <= n
    ensures Deficit(m, n) >= 0
    ensures Deficit(m, n) == 0 <==> forall s | s in m :: m[s] == n
    decreases |m|
  {
    if m != map[] {
      var s :| s in m;
      assert (m - {s}).Keys == m.Keys - {s};
      DeficitSplit(m, n, s);
      DeficitIsZero(m - {s}, n);
      assert forall t | t in m && t != s :: t in m - {s} && (m - {s})[t] == m[t];
    }
  }

  ghost function Missing(c: Ctx): int {
    Deficit(c.client.recvServerUpdateId, c.client.updateId)
  }

  /** The answer on record for a server. */
  ghost function Answer(c: Ctx, s: NodeId): nat {
    if s in c.client.recvServerUpdateId then c.client.recvServerUpdateId[s] else 0
  }

  lemma ZeroMeansAgreed(c: Client)
    requires c.recvServerUpdateId.Keys == c.serverIds != {} && c.updateId <= MAX_UINT32
    requires forall s | s in c.recvServerUpdateId :: c.recvServerUpdateId[s] <= c.updateId
    ensures Deficit(c.recvServerUpdateId, c.updateId) >= 0
    ensures Deficit(c.recvServerUpdateId, c.updateId) == 0 <==> Agreed(c)
  {
    DeficitIsZero(c.recvServerUpdateId, c.updateId);
    var s :| s in c.serverIds;
    assert s in c.recvServerUpdateId;
  }

  /** The measure is zero exactly when the check for agreement passes. */
  lemma NothingMissingIffAgreed(ids: set<NodeId>, fifo: bool, steps: seq<Step>, st: State)
    requires Reached(ids, fifo, steps, st) && st.ctx.phase == Some(VOTE_OP) && st.ctx.recv == st.nodes.Keys != {}
    ensures Missing(st.ctx) >= 0
    ensures Missing(st.ctx) == 0 <==> Agreed(st.ctx.client)
  {
    hide NodeInv, Agreed, Deficit;
    ReachedInv(ids, fifo, steps, st);
    VoteSoundness(ids, fifo, steps, st);
    ZeroMeansAgreed(st.ctx.client);
  }

  lemma VoteOnLink(c: Ctx, s: NodeId, n: Node)
    requires NodeInv(c, s, n) && n.up != [] && n.up[0].msg.VoteAck? && c.fifo && c.phase == Some(VOTE_OP)
    ensures s in c.client.recvServerUpdateId ==> c.client.recvServerUpdateId[s] <= n.up[0].msg.updateId
    ensures n.up[0].msg.fileDesc == 0
  {
    var t := n.up[0];
    assert t in n.up && UpMsgOk(c, n.server, t);
  }

  lemma OneAnswer(c: Ctx, s: NodeId, n: Node)
    requires c.client.Valid() && c.phase == Some(VOTE_OP) && s in c.client.serverIds && n.up != []
    requires s in c.client.recvServerUpdateId
    requires n.up[0].msg.VoteAck? ==> n.up[0].msg.fileDesc == 0 && Answer(c, s) <= n.up[0].msg.updateId
    ensures var d, t := AfterPacket(c, s, n.up[0].msg), n.up[0];
            && Missing(d) <= Missing(c)
            && (t.msg.VoteAck? ==> Missing(d) == Missing(c) - (t.msg.updateId - Answer(c, s)))
  {
    hide Deficit, OnVoteAck;
    var t := n.up[0];
    if t.msg.VoteAck? {
      VotePacketReaction(c.client, c.recv, c.fd, s, t.msg.updateId);
      DeficitUpdate(c.client.recvServerUpdateId, c.client.updateId, s, t.msg.updateId);
    }
  }

  lemma AnswerMeasured(c: Ctx, s: NodeId, n: Node)
    requires CtxInv(c) && NodeInv(c, s, n) && s in c.client.serverIds && n.up != []
    requires c.fifo && c.phase == Some(VOTE_OP) && s in c.client.recvServerUpdateId
    ensures var d, t := React(c, s, n.up[0].msg).0, n.up[0];
            && Missing(d) <= Missing(c)
            && (t.msg.VoteAck? ==> Missing(d) == Missing(c) - (t.msg.updateId - Answer(c, s)))
  {
    if n.up[0].msg.VoteAck? {
      VoteOnLink(c, s, n);
    }
    OneAnswer(c, s, n);
    hide *;
    CtxBasics(c);
    VoteKeepsRecords(c, s, n.up[0].msg);
  }

  /** What `execute` returns does not change the records, even if it ends the phase. */
  lemma VoteKeepsRecords(c: Ctx, s: NodeId, m: Message)
    requires c.client.Valid() && s in c.client.serverIds && c.phase == Some(VOTE_OP)
    ensures Missing(React(c, s, m).0) == Missing(AfterPacket(c, s, m))
  {
    hide OnPacket, Deficit;
  }

  lemma AllAnswered(c: Ctx, nodes: map<NodeId, Node>)
    requires CtxInv(c) && NodesInv(c, nodes) && c.phase == Some(VOTE_OP) && c.recv == nodes.Keys
    ensures c.client.recvServerUpdateId.Keys == nodes.Keys
    ensures forall s | s in nodes :: NodeInv(c, s, nodes[s])
  {
    hide PhaseInv, CallInv, NodeInv;
  }

  lemma LeaveKeepsMissing(c: Ctx, ret: Ret)
    requires c.client.Valid() && c.phase == Some(VOTE_OP)
    ensures Missing(Leave(c, ret, false)) == Missing(c)
  {
    hide Deficit;
  }

  lemma AskedKeepsMissing(c: Ctx)
    ensures Missing(c.(asked := true)) == Missing(c)
  {
  }

  /** On FIFO links, once all servers have voted, no step of the phase raises the measure,
      and counting a higher answer lowers it by exactly the difference; so does the last
      one, which passes the check and ends the phase. */
  lemma RepairMeasure(ids: set<NodeId>, steps: seq<Step>, st: State, step: Step)
    requires Reached(ids, true, steps, st) && st.ctx.phase == Some(VOTE_OP) && st.ctx.recv == st.nodes.Keys
    requires Enabled(st, step)
    ensures Missing(Do(st, step).ctx) <= Missing(st.ctx)
    ensures step.Receive? && st.nodes[step.s].up[0].msg.VoteAck? ==>
              Missing(Do(st, step).ctx) ==
                Missing(st.ctx) - (st.nodes[step.s].up[0].msg.updateId - Answer(st.ctx, step.s))
  {
    hide *;
    var c := st.ctx;
    ReachedMeans(ids, true, steps, st);
    ReachedFifo(ids, true, steps, st);
    GoodMeans(c, st.nodes);
    CtxBasics(c);
    AllAnswered(c, st.nodes);
    AsMember(st);
    if step.Receive? {
      DoReceive(st, step);
      AnswerMeasured(c, step.s, st.nodes[step.s]);
    } else {
      DoOtherwise(st, step);
      if step.ReceiveForeign? {
        ForeignReaction(c, step.from, step.m);
        LeaveKeepsMissing(c, NormalReturn);
      } else if step.TimeOut? {
        LeaveKeepsMissing(c, Finish(c.client, VOTE_OP, c.recv));
      } else {
        AskedKeepsMissing(c);
      }
    }
  }

  lemma {:induction false} FifoStays(ids: set<NodeId>, fifo: bool, steps: seq<Step>)
    requires Run(ids, fifo, steps).Some?
    ensures Run(ids, fifo, steps).value.ctx.fifo == fifo
  {
    if steps != [] {
      FifoStays(ids, fifo, steps[..|steps| - 1]);
      hide Do;
    }
  }

  lemma ReachedFifo(ids: set<NodeId>, fifo: bool, steps: seq<Step>, st: State)
    requires Reached(ids, fifo, steps, st)
    ensures st.ctx.fifo == fifo
  {
    FifoStays(ids, fifo, steps);
  }
}
