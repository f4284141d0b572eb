/** The order in which phases begin and blocks are accepted. */
module Dates {
  import opened FileModel
  import opened Messages
  import opened ClientSpec
  import opened Protocol
  import opened Invariant
  import opened Reachability
  import opened Theorems
  import opened Runs

  /** No block is accepted in a phase; what is cached outside an ABORT was accepted after the
      latest one; only an OPEN can be tried again in the epoch of its decision. */
  predicate Dated(c: Ctx) {
    && (c.phase.Some? ==> c.wrote < c.begun)
    && (c.client.updateId > 0 && ABORT_OP in c.started && c.phase != Some(ABORT_OP) ==> c.started[ABORT_OP] <= c.wrote)
    && Repeats(c.phases) && c.phases != [] && c.phases[0].op == INIT_OP
  }

  predicate Repeats(phases: seq<Phase>) {
    forall j, k | 0 <= j < k < |phases| ::
      phases[j].epoch == phases[k].epoch && phases[k].epoch % 2 == 1 ==> phases[k].op == OPEN_OP
  }

  /** The part of `PhaseInv` needed here. */
  predicate Counted(c: Ctx) {
    && |c.phases| == c.begun + 1 && c.wrote <= c.begun
    && forall k | 0 <= k < |c.phases| :: c.phases[k].epoch <= c.epoch
  }

  lemma PhaseCounted(c: Ctx)
    requires PhaseInv(c)
    ensures Counted(c)
  {
  }

  lemma OneMore(phases: seq<Phase>, p: Phase)
    requires Repeats(phases)
    requires forall k | 0 <= k < |phases| :: phases[k].epoch < p.epoch || p.op == OPEN_OP || p.epoch % 2 == 0
    ensures Repeats(phases + [p])
  {
  }

  lemma StartDated(c: Ctx, op: Op)
    requires Dated(c) && Counted(c) && (Deciding(c) ==> op == OPEN_OP)
    requires c.phase == Some(ABORT_OP) ==> c.client.updateId == 0
    ensures Dated(StartPhase(c, op))
  {
    OneMore(c.phases, Phase(op, c.epoch));
    hide Repeats, Clear;
  }

  lemma DecisionDated(c: Ctx, op: Op)
    requires Dated(c) && Counted(c) && c.phase != Some(ABORT_OP)
    ensures Dated(BeginDecision(c, op))
  {
    OneMore(c.phases, Phase(op, c.epoch + 1));
    hide Repeats, Clear;
  }

  lemma DatedFrame(c: Ctx, d: Ctx)
    requires Dated(c) && (d.phase == c.phase || d.phase.None?) && d.phases == c.phases && d.started == c.started
    requires d.begun == c.begun && d.wrote == c.wrote
    requires d.client.updateId == 0 || (d.client.updateId == c.client.updateId && c.phase != Some(ABORT_OP))
    ensures Dated(d)
  {
  }

  lemma CountedFrame(c: Ctx, d: Ctx)
    requires Counted(c) && d.phases == c.phases && d.begun == c.begun && d.wrote == c.wrote && d.epoch >= c.epoch
    ensures Counted(d)
  {
  }

  lemma LeaveOpenDated(c: Ctx, ret: Ret)
    requires Dated(c) && c.phase == Some(OPEN_OP)
    ensures Dated(LeaveOpen(c, ret))
  {
    hide Dated;
    DatedFrame(c, LeaveOpen(c, ret));
  }

  lemma LeaveVoteDated(c: Ctx, ret: Ret, checked: bool)
    requires Dated(c) && Counted(c) && c.phase == Some(VOTE_OP) && c.client.Valid()
    ensures Dated(LeaveVote(c, ret, checked))
  {
    hide Dated, BeginDecision, Counted, CurrentTxn;
    match ret {
      case ErrorReturn => DecisionDated(c, ABORT_OP);
      case Again => DatedFrame(c, c.(asked := false));
      case NormalReturn =>
        var d := c.(log := c.log + [CurrentTxn(c)], tainted := c.tainted || !checked);
        DatedFrame(c, d);
        CountedFrame(c, d);
        DecisionDated(d, COMMIT_OP);
    }
  }

  lemma LeaveCommitDated(c: Ctx, ret: Ret)
    requires Dated(c) && Counted(c) && c.phase == Some(COMMIT_OP) && Deciding(c)
    ensures Dated(LeaveCommit(c, ret))
  {
    hide Dated, BeginDecision, Counted, StartPhase;
    if ret != NormalReturn {
      var d := c.(tainted := true);
      DatedFrame(c, d);
      CountedFrame(c, d);
      DecisionDated(d, ABORT_OP);
    } else {
      var d := EndDecision(c.(client := c.client.Reset()));
      DatedFrame(c, d);
      CountedFrame(c, d);
      if c.call == CLOSE_OP {
        StartDated(d, CLOSE_OP);
        DatedFrame(StartPhase(d, CLOSE_OP), LeaveCommit(c, ret));
      } else {
        DatedFrame(d, LeaveCommit(c, ret));
      }
    }
  }

  lemma LeaveAbortDated(c: Ctx, ret: Ret)
    requires Dated(c) && c.phase == Some(ABORT_OP)
    ensures Dated(LeaveAbort(c, ret))
  {
    hide Dated;
    LeaveAbortFields(c, ret);
    hide LeaveAbort;
    DatedFrame(c, LeaveAbort(c, ret));
  }

  lemma LeaveCloseDated(c: Ctx, ret: Ret)
    requires Dated(c) && Counted(c) && c.phase == Some(CLOSE_OP) && !Deciding(c)
    ensures Dated(LeaveClose(c, ret))
  {
    hide Dated, Counted, StartPhase;
    if ret == Again && !c.second {
      DatedFrame(c, c.(survivors := c.recv));
      CountedFrame(c, c.(survivors := c.recv));
      StartDated(c.(survivors := c.recv), VOTE_OP);
    } else {
      DatedFrame(c, LeaveClose(c, ret));
    }
  }

  lemma RunningParity(c: Ctx)
    requires PhaseInv(c)
    ensures c.phase == Some(COMMIT_OP) ==> Deciding(c)
    ensures c.phase == Some(CLOSE_OP) ==> !Deciding(c)
  {
    VoteIsEven(c);
    hide OnlyDecision, HeardSince;
    assert c.phase.Some? ==> EpochOk(c, c.phases[c.begun].op, c.phases[c.begun].epoch);
  }

  lemma LeaveDated(c: Ctx, ret: Ret, checked: bool)
    requires Dated(c) && PhaseInv(c) && c.client.Valid() && c.phase.Some? && c.phase.value != INIT_OP
    ensures Dated(Leave(c, ret, checked))
  {
    RunningParity(c);
    PhaseCounted(c);
    hide Dated, Counted, PhaseInv, LeaveOpen, LeaveVote, LeaveCommit, LeaveAbort, LeaveClose, Onward, WithinCall;
    match c.phase.value {
      case OPEN_OP => LeaveOpenDated(c, ret);
      case VOTE_OP => LeaveVoteDated(c, ret, checked);
      case COMMIT_OP => LeaveCommitDated(c, ret);
      case ABORT_OP => LeaveAbortDated(c, ret);
      case CLOSE_OP => LeaveCloseDated(c, ret);
    }
  }

  lemma CalledDated(c: Ctx, call: Step)
    requires Dated(c) && PhaseInv(c) && c.client.Valid() && c.phase.None? && IsCall(call)
    requires c.isFileOpen || call.CallOpen?
    ensures Dated(CalledCtx(c, call))
  {
    PhaseCounted(c);
    ClosedWhileDeciding(c);
    hide Dated, Counted, PhaseInv, StartPhase, BeginDecision, CloseSafe, CurrentTxn, Onward;
    match call {
      case CallOpen(name) =>
        var e := Naming(c);
        var d := e.(prevName := c.fileName, fileName := name);
        DatedFrame(c, e);
        DatedFrame(c, d);
        CountedFrame(c, e);
        CountedFrame(c, d);
        if name == c.fileName {
          SameNameDated(e);
        } else {
          DecisionDated(d, OPEN_OP);
        }
      case CallWrite(u) => WriteDated(c, u);
      case CallCommit => FirstPhaseDated(c, COMMIT_OP);
      case CallAbort => FirstPhaseDated(c, ABORT_OP);
      case CallClose => FirstPhaseDated(c, CLOSE_OP);
    }
  }

  lemma SameNameDated(c: Ctx)
    requires Dated(c) && Counted(c) && c.phase.None?
    ensures Dated(StartPhase(c, OPEN_OP))
  {
    hide Dated, Counted;
    StartDated(c, OPEN_OP);
  }

  lemma ClosedWhileDeciding(c: Ctx)
    requires PhaseInv(c) && c.phase.None?
    ensures Deciding(c) ==> !c.isFileOpen
  {
  }

  lemma WriteDated(c: Ctx, u: Update)
    requires Dated(c) && PhaseInv(c) && c.phase.None?
    ensures Dated(CallWriteCtx(c, u))
  {
    hide OnlyDecision, HeardSince, Repeats;
  }

  lemma FirstPhaseDated(c: Ctx, call: Op)
    requires Dated(c) && Counted(c) && c.client.Valid() && c.phase.None? && !Deciding(c)
    ensures Dated(CallCtx(c, call))
  {
    var d := Called(c, call);
    DatedFrame(c, d);
    CountedFrame(c, d);
    hide Dated, Counted, StartPhase, BeginDecision, CloseSafe, CurrentTxn;
    StartDated(d, if call == COMMIT_OP then VOTE_OP else call);
    DecisionDated(d, ABORT_OP);
  }

  lemma ReactDated(c: Ctx, from: NodeId, m: Message)
    requires Dated(c) && PhaseInv(c) && c.client.Valid() && c.phase.Some? && c.phase.value != INIT_OP
    requires PhaseInv(AfterPacket(c, from, m))
    ensures Dated(React(c, from, m).0)
  {
    hide *;
    var a, d := OnPacket(c.client, c.phase.value, c.recv, c.fd, from, m), AfterPacket(c, from, m);
    PacketDated(c, from, m);
    ReactReceive(c, from, m, a, d);
    if a.exit.Some? {
      LeaveDated(d, a.exit.value, from in c.client.serverIds);
    }
  }

  lemma PacketDated(c: Ctx, from: NodeId, m: Message)
    requires Dated(c) && c.client.Valid() && c.phase.Some? && c.phase.value != INIT_OP
    ensures Dated(AfterPacket(c, from, m)) && AfterPacket(c, from, m).phase == c.phase
  {
    PacketKeepsCount(c.client, c.phase.value, c.recv, c.fd, from, m);
    hide OnPacket, Repeats;
  }

  lemma PacketKeepsCount(c: Client, op: Op, recv: set<NodeId>, fd: nat, from: NodeId, m: Message)
    requires c.Valid()
    ensures OnPacket(c, op, recv, fd, from, m).client.updateId == c.updateId
  {
    hide Smallest, Resend;
  }

  lemma StepDated(ids: set<NodeId>, fifo: bool, steps: seq<Step>, st: State, step: Step)
    requires Reached(ids, fifo, steps, st) && Enabled(st, step) && Dated(st.ctx)
    ensures Dated(Do(st, step).ctx)
  {
    hide *;
    var c := st.ctx;
    ReachedMeans(ids, fifo, steps, st);
    GoodMeans(c, st.nodes);
    CtxPieces(c);
    CtxBasics(c);
    AsMember(st);
    IsRunningOrNot(st, step);
    if IsCall(step) {
      CallEffect(st, step);
      CalledDated(c, step);
    } else if step.Receive? {
      DoReceive(st, step);
      ReceiveCounts(c, st.nodes, step.s);
      CtxPieces(AfterPacket(c, step.s, st.nodes[step.s].up[0].msg));
      ReactDated(c, step.s, st.nodes[step.s].up[0].msg);
    } else if c.phase.Some? {
      DoOtherwise(st, step);
      if step.TimeOut? {
        LeaveDated(c, Finish(c.client, c.phase.value, c.recv), false);
      } else if step.ReceiveForeign? {
        ForeignReaction(c, step.from, step.m);
        LeaveDated(c, NormalReturn, false);
      } else {
        AskedDated(c);
      }
    }
  }

  lemma AskedDated(c: Ctx)
    requires Dated(c)
    ensures Dated(c.(asked := true))
  {
  }

  lemma IsRunningOrNot(st: State, step: Step)
    requires Sane(st) && Enabled(st, step)
    ensures IsCall(step) ==> st.ctx.phase.None? && (st.ctx.isFileOpen || step.CallOpen?)
    ensures step.Receive? || step.TimeOut? || step.ReceiveForeign? ==> st.ctx.phase.Some?
    ensures st.ctx.phase.None? && !IsCall(step) ==> Do(st, step).ctx == st.ctx
  {
    hide DoCall, DoPhase, DeliverTo, NetworkStep;
  }

  lemma {:induction false} RunDated(ids: set<NodeId>, fifo: bool, steps: seq<Step>, st: State)
    requires Reached(ids, fifo, steps, st)
    ensures Dated(st.ctx)
  {
    if steps != [] {
      ReachedBefore(ids, fifo, steps, st);
      var front := steps[..|steps| - 1];
      var before := Run(ids, fifo, front).value;
      hide *;
      RunDated(ids, fifo, front, before);
      StepDated(ids, fifo, front, before, steps[|steps| - 1]);
    }
  }

  lemma ReachedBefore(ids: set<NodeId>, fifo: bool, steps: seq<Step>, st: State)
    requires Reached(ids, fifo, steps, st) && steps != []
    ensures var front := steps[..|steps| - 1];
            && Run(ids, fifo, front).Some? && Reached(ids, fifo, front, Run(ids, fifo, front).value)
            && Sane(Run(ids, fifo, front).value) && Enabled(Run(ids, fifo, front).value, steps[|steps| - 1])
            && st == Do(Run(ids, fifo, front).value, steps[|steps| - 1])
            && Run(ids, fifo, front).value.nodes.Keys == st.nodes.Keys
            && Occurs(ids, fifo, Run(ids, fifo, front).value)
  {
    hide Do, Enabled;
  }
}
