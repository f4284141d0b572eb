/** What a run must do to leave the assumptions of the theorems, exactly. When a guarantee
    can be lost after such a step is the subject of `Returns` and `Atomicity`. */
module Assumptions {
  import opened Messages
  import opened ClientSpec
  import opened Protocol
  import opened Invariant
  import opened Preservation
  import opened Reachability
  import opened Theorems
  import opened Runs

  /** The steps after which nothing more is promised, in terms of what the client has
      before the step:
      - an OPEN of another name, or an ABORT with something cached, begun while some server may
        still answer an earlier phase of its op;
      - a deadline met with answers missing in a COMMIT, in an ABORT with something cached, or
        in an OPEN of another name while a file is open;
      - a vote left with a full set but not through the check, by the deadline or by an answer
        of a server the client does not know, and one given up with an unclear ABORT. */
  predicate Breaks(c: Ctx, step: Step) {
    match step
    case CallOpen(name) => name != c.fileName && !Clear(c, OPEN_OP)
    case CallAbort => c.client.updateId != 0 && !Clear(c, ABORT_OP)
    case TimeOut =>
      if c.phase == Some(VOTE_OP) then |c.recv| >= c.client.numServers || !Clear(c, ABORT_OP)
      else
        |c.recv| < c.client.numServers
        && (c.phase == Some(COMMIT_OP)
            || (Deciding(c) && (c.phase == Some(ABORT_OP) || (c.phase == Some(OPEN_OP) && c.isFileOpen))))
    case ReceiveForeign(_, m) => c.phase == Some(VOTE_OP) && m.VoteAck? && |c.recv| == c.client.numServers
    case _ => false
  }

  lemma DecisionTaints(c: Ctx, ret: Ret)
    requires !c.tainted
    ensures LeaveOpen(c, ret).tainted <==> Deciding(c) && c.isFileOpen && ret != NormalReturn
    ensures LeaveAbort(c, ret).tainted <==> Deciding(c) && ret != NormalReturn
  {
  }

  lemma CommitTaints(c: Ctx, ret: Ret)
    requires !c.tainted
    ensures LeaveCommit(c, ret).tainted <==> ret != NormalReturn
  {
    hide Clear;
  }

  lemma VoteTaints(c: Ctx, ret: Ret)
    requires c.client.Valid() && !c.tainted && ret != Again
    ensures LeaveVote(c, ret, false).tainted <==> ret == NormalReturn || !Clear(c, ABORT_OP)
  {
    hide CurrentTxn;
  }

  lemma CloseTaints(c: Ctx, ret: Ret)
    requires !c.tainted && ret != Again
    ensures !LeaveClose(c, ret).tainted
  {
  }

  lemma TimeOutTaints(c: Ctx)
    requires c.client.Valid() && Running(c) && !c.tainted
    ensures Leave(c, Finish(c.client, c.phase.value, c.recv), false).tainted <==> Breaks(c, TimeOut)
  {
    var ret := Finish(c.client, c.phase.value, c.recv);
    DecisionTaints(c, ret);
    CommitTaints(c, ret);
    VoteTaints(c, ret);
    CloseTaints(c, ret);
    hide LeaveOpen, LeaveVote, LeaveCommit, LeaveAbort, LeaveClose, Clear;
  }

  /** An exit through the check, a completed decision, or a CLOSE pass keeps the assumptions. */
  lemma CheckedExit(c: Ctx, ret: Ret)
    requires PhaseInv(c) && c.client.Valid() && c.phase.Some? && !c.tainted
    requires ret == NormalReturn || (ret == Again && (c.phase == Some(VOTE_OP) || c.phase == Some(CLOSE_OP)))
    requires c.phase == Some(VOTE_OP) && ret == NormalReturn ==> HeardSince(c, c.epoch)
    ensures !Leave(c, ret, true).tainted
  {
    DecisionTaints(c, ret);
    CommitTaints(c, ret);
    VoteIsEven(c);
    if c.phase == Some(VOTE_OP) && ret == NormalReturn {
      CommitStartsClear(c);
    }
    CheckedVoteTaints(c, ret);
    SecondTaints(c, ret);
    hide LeaveOpen, LeaveVote, LeaveCommit, LeaveAbort, LeaveClose, Clear, PhaseInv;
  }

  lemma CheckedVoteTaints(c: Ctx, ret: Ret)
    requires c.client.Valid() && !c.tainted && ret != ErrorReturn
    ensures LeaveVote(c, ret, true).tainted ==> ret == NormalReturn && !Clear(c, COMMIT_OP)
  {
    ClearFrame(c, c.(log := c.log + [CurrentTxn(c)]), COMMIT_OP);
    hide Clear, CurrentTxn;
  }

  lemma SecondTaints(c: Ctx, ret: Ret)
    requires !c.tainted
    ensures !LeaveClose(c, ret).tainted
  {
    hide Clear;
  }

  /** No answer of a known server ever breaks an assumption. */
  lemma MemberNeverTaints(c: Ctx, s: NodeId, n: Node)
    requires CtxInv(c) && c.phase.Some? && c.phase.value != INIT_OP && !c.tainted && s in c.client.serverIds
    requires n.up != [] && UpMsgOk(c, n.server, n.up[0])
    requires CtxInv(AfterPacket(c, s, n.up[0].msg))
    ensures !React(c, s, n.up[0].msg).0.tainted
  {
    hide *;
    var m := n.up[0].msg;
    CtxBasics(c);
    var a, d := OnPacket(c.client, c.phase.value, c.recv, c.fd, s, m), AfterPacket(c, s, m);
    MemberPacket(c, s, n);
    AfterPacketFrame(c, s, m);
    CtxCounts(d);
    ReactReceive(c, s, m, a, d);
    if a.exit.Some? {
      if a.exit == Some(Again) {
        AgainOnlyInVoteOrClose(c.client, c.phase.value, c.recv, c.fd, s, m);
      }
      if a.exit == Some(NormalReturn) && c.phase == Some(VOTE_OP) {
        AllVoted(d);
      }
      CheckedExit(d, a.exit.value);
    }
  }

  lemma AllVoted(c: Ctx)
    requires CtxInv(c) && c.phase == Some(VOTE_OP) && |c.recv| == c.client.numServers
    ensures HeardSince(c, c.epoch)
  {
    SubsetCardinalityOf(c);
    NotIdleVote(c);
    FullIsHeard(c);
  }

  lemma AfterPacketFrame(c: Ctx, s: NodeId, m: Message)
    requires c.client.Valid() && c.phase.Some? && c.phase.value != INIT_OP
    ensures AfterPacket(c, s, m).phase == c.phase && AfterPacket(c, s, m).tainted == c.tainted
  {
  }

  lemma CtxCounts(c: Ctx)
    requires CtxInv(c)
    ensures PhaseInv(c) && c.client.Valid() && |c.recv| <= c.client.numServers
  {
    SubsetCardinalityOf(c);
  }

  lemma ForeignTaints(c: Ctx, from: NodeId, m: Message)
    requires PhaseInv(c) && c.client.Valid() && c.phase.Some? && !c.tainted && from !in c.client.serverIds
    ensures React(c, from, m).0.tainted <==> Breaks(c, ReceiveForeign(from, m))
  {
    ForeignReaction(c, from, m);
    MatchedVote(m);
    UncheckedExit(c);
    hide OnPacket, Leave, React, Clear;
  }

  lemma MatchedVote(m: Message)
    ensures MatchesOp(m, VOTE_OP) <==> m.VoteAck?
  {
  }

  lemma UncheckedExit(c: Ctx)
    requires PhaseInv(c) && c.client.Valid() && c.phase.Some? && !c.tainted
    ensures Leave(c, NormalReturn, false).tainted <==> c.phase == Some(VOTE_OP)
  {
    if c.phase != Some(VOTE_OP) {
      CheckedExit(c, NormalReturn);
    }
  }

  lemma OpenTaints(c: Ctx, name: Name)
    requires !c.tainted
    ensures CallOpenCtx(c, name).tainted <==> name != c.fileName && !Clear(c, OPEN_OP)
  {
    ClearFrame(c, Naming(c).(prevName := c.fileName, fileName := name), OPEN_OP);
    hide Clear, StartPhase;
    StartKeepsTaint(Naming(c), OPEN_OP);
    DecisionTaintsIff(Naming(c).(prevName := c.fileName, fileName := name), OPEN_OP);
    hide BeginDecision;
  }

  lemma StartKeepsTaint(c: Ctx, op: Op)
    ensures StartPhase(c, op).tainted == c.tainted
  {
  }

  lemma DecisionTaintsIff(c: Ctx, op: Op)
    ensures BeginDecision(c, op).tainted <==> c.tainted || !Clear(c, op)
  {
    hide Clear;
  }

  lemma AbortTaints(c: Ctx, call: Op)
    requires c.client.Valid() && !c.tainted
    ensures CallCtx(c, call).tainted <==> call == ABORT_OP && c.client.updateId != 0 && !Clear(c, ABORT_OP)
  {
    ClearFrame(c, Called(c, call), ABORT_OP);
    DecisionTaintsIff(Called(c, call), ABORT_OP);
    hide Clear, CloseSafe, CurrentTxn, BeginDecision, StartPhase;
    StartKeepsTaint(Called(c, call), if call == COMMIT_OP then VOTE_OP else call);
  }

  lemma CallTaints(c: Ctx, step: Step)
    requires c.client.Valid() && !c.tainted && IsCall(step)
    ensures CalledCtx(c, step).tainted <==> Breaks(c, step)
  {
    hide CallCtx, CallOpenCtx, CallWriteCtx, Clear, Onward;
    match step {
      case CallOpen(name) => OpenTaints(c, name);
      case CallCommit => AbortTaints(c, COMMIT_OP);
      case CallAbort => AbortTaints(c, ABORT_OP);
      case CallClose => AbortTaints(c, CLOSE_OP);
      case _ =>
    }
  }

  lemma AnswerOnLink(c: Ctx, nodes: map<NodeId, Node>, s: NodeId)
    requires CtxInv(c) && NodesInv(c, nodes) && c.phase.Some? && nodes.Keys == c.client.serverIds
    requires s in nodes && nodes[s].up != [] && !c.tainted && c.phase.value != INIT_OP
    ensures !React(c, s, nodes[s].up[0].msg).0.tainted
  {
    hide *;
    ReceiveCounts(c, nodes, s);
    MemberNeverTaints(c, s, nodes[s]);
  }

  /** The theorems' assumption, made explicit: from a state that has kept it, a step leaves
      it exactly if it is one of those listed in `Breaks`. */
  lemma AssumptionsEndExactlyWhen(ids: set<NodeId>, fifo: bool, steps: seq<Step>, st: State, step: Step)
    requires Reached(ids, fifo, steps, st) && Enabled(st, step)
    ensures Do(st, step).ctx.tainted <==> Breaks(st.ctx, step)
  {
    hide *;
    var c := st.ctx;
    ReachedMeans(ids, fifo, steps, st);
    NotTainted(ids, fifo, steps, st);
    GoodMeans(c, st.nodes);
    CtxBasics(c);
    CtxCounts(c);
    AsMember(st);
    if c.phase.None? {
      OutsideSteps(st, step);
      if IsCall(step) {
        CallEffect(st, step);
        CallTaints(c, step);
      }
    } else if step.Receive? {
      DoReceive(st, step);
      AnswerOnLink(c, st.nodes, step.s);
      OthersNeverBreak(c, step);
    } else {
      DoOtherwise(st, step);
      if step.TimeOut? {
        TimeOutTaints(c);
      } else if step.ReceiveForeign? {
        ForeignTaints(c, step.from, step.m);
      } else {
        OthersInPhase(st, step);
      }
    }
  }

  lemma OutsideSteps(st: State, step: Step)
    requires Sane(st) && Enabled(st, step) && st.ctx.phase.None?
    ensures IsCall(step) || (Do(st, step).ctx == st.ctx && !Breaks(st.ctx, step))
  {
    hide DoCall, DoPhase, DeliverTo, NetworkStep, Clear;
  }

  lemma OthersNeverBreak(c: Ctx, step: Step)
    requires step.Receive?
    ensures !Breaks(c, step)
  {
  }

  lemma OthersInPhase(st: State, step: Step)
    requires Enabled(st, step) && st.ctx.phase.Some? && !step.TimeOut? && !step.ReceiveForeign?
    ensures !Breaks(st.ctx, step) && st.ctx.tainted == st.ctx.(asked := true).tainted
  {
  }

  /** No step of the run was one of those listed in `Breaks`. */
  ghost predicate NothingBroke(ids: set<NodeId>, fifo: bool, steps: seq<Step>) {
    forall i | 0 <= i < |steps| && Run(ids, fifo, steps[..i]).Some? ::
      !Breaks(Run(ids, fifo, steps[..i]).value.ctx, steps[i])
  }

  /** ... and of whole runs: the theorems speak of exactly those in which nothing broke. */
  lemma {:induction false} RunKeepsAssumptionsIff(ids: set<NodeId>, fifo: bool, steps: seq<Step>)
    requires Run(ids, fifo, steps).Some?
    ensures !Run(ids, fifo, steps).value.ctx.tainted <==> NothingBroke(ids, fifo, steps)
  {
    if steps != [] {
      var n := |steps| - 1;
      var front := steps[..n];
      RunKeepsAssumptionsIff(ids, fifo, front);
      var st := Run(ids, fifo, front).value;
      assert Run(ids, fifo, steps) == Some(Do(st, steps[n]));
      if !st.ctx.tainted {
        AssumptionsEndExactlyWhen(ids, fifo, front, st, steps[n]);
      }
      hide *;
      LastStep(ids, fifo, steps);
    }
  }

  lemma LastStep(ids: set<NodeId>, fifo: bool, steps: seq<Step>)
    requires steps != [] && Run(ids, fifo, steps[..|steps| - 1]).Some?
    ensures NothingBroke(ids, fifo, steps) <==>
              && NothingBroke(ids, fifo, steps[..|steps| - 1])
              && !Breaks(Run(ids, fifo, steps[..|steps| - 1]).value.ctx, steps[|steps| - 1])
  {
    hide Run, Breaks;
    var n := |steps| - 1;
    var front := steps[..n];
    forall i | 0 <= i < n
      ensures front[..i] == steps[..i] && front[i] == steps[i]
    {
    }
  }
}
