/** What a Commit that returns an error has done to the files, exactly: nothing if its vote
    failed, whatever becomes of the ABORT that follows; if its COMMIT phase failed, it may
    have committed everything. And what one that left its vote unchecked may have done. */
module Atomicity {
  import opened Messages
  import opened ServerSpec
  import opened ClientSpec
  import opened Network
  import opened Protocol
  import opened Invariant
  import opened Reachability
  import opened Theorems
  import opened Runs
  import opened Dates
  import opened Spares
  import opened Returns

  // -------------------------------------------------------------- after a vote that failed

  /** No COMMIT is behind a block or an OPEN. */
  predicate CommitFirst(a: Tagged, b: Tagged) {
    b.msg.Commit? ==> !a.msg.WriteBlock? && !a.msg.OpenFile?
  }

  /** Any COMMIT still under way repeats one that the server has carried out. */
  ghost predicate Harmless(n: Node) {
    && n.server.Valid() && Pairwise(n.down, CommitFirst)
    && forall t | t in n.down && t.msg.Commit? :: n.server.Clean() && n.server.fileName in n.server.disk
  }

  lemma VotingIsHarmless(c: Ctx, s: NodeId, n: Node)
    requires PhaseInv(c) && Core(c, s, n) && c.phase == Some(VOTE_OP)
    ensures Harmless(n) && n.server.disk == DiskAfter(c.log)
  {
    CoreParts(c, s, n);
    VoteIsEven(c);
    hide PhaseInv, Ordered, Numbered, UpOk, Idling, DiskAfter;
    forall t | t in n.down && t.msg.Commit?
      ensures n.server.Clean() && n.server.fileName in n.server.disk
    {
      CommitIsOdd(c, t);
      DecisionIsRepeatedOrCurrent(c, s, n, t);
      hide DownOk;
    }
    forall i, j | 0 <= i < j < |n.down|
      ensures CommitFirst(n.down[i], n.down[j])
    {
      CommitsComeFirst(c, s, n, i, j);
    }
  }

  lemma CommitsComeFirst(c: Ctx, s: NodeId, n: Node, i: nat, j: nat)
    requires PhaseInv(c) && Core(c, s, n) && c.phase == Some(VOTE_OP) && i < j < |n.down|
    ensures CommitFirst(n.down[i], n.down[j])
  {
    hide *;
    CoreParts(c, s, n);
    var t, u := n.down[i], n.down[j];
    InOrder(c, s, n, i, j);
    if u.msg.Commit? {
      CommitIsOdd(c, u);
      CommitIsDecision(u);
      DecisionIsRepeatedOrCurrent(c, s, n, u);
      VoteIsEven(c);
      NoneBefore(c, n);
      OddIsNoBlock(c, t, u);
    }
    FirstUnless(t, u);
  }

  lemma InOrder(c: Ctx, s: NodeId, n: Node, i: nat, j: nat)
    requires Ordered(c, s, n) && DownOk(c, n) && i < j < |n.down|
    ensures var t, u := n.down[i], n.down[j];
            u in n.down && n.seen <= t.epoch <= u.epoch && DownMsgOk(c, t) && DownMsgOk(c, u)
  {
    assert n.down[i] in n.down && n.down[j] in n.down;
  }

  lemma NoneBefore(c: Ctx, n: Node)
    requires !Deciding(c)
    ensures forall op :: !Before(c, n, op)
  {
  }

  /** Between decisions, a message in the epoch of an earlier COMMIT is neither block nor OPEN. */
  lemma OddIsNoBlock(c: Ctx, t: Tagged, u: Tagged)
    requires DownMsgOk(c, t) && DownMsgOk(c, u) && u.msg.Commit? && t.epoch == u.epoch && u.epoch % 2 == 1
    ensures !t.msg.WriteBlock? && !t.msg.OpenFile?
  {
  }

  lemma FirstUnless(t: Tagged, u: Tagged)
    requires u.msg.Commit? ==> !t.msg.WriteBlock? && !t.msg.OpenFile?
    ensures CommitFirst(t, u)
  {
  }

  lemma HandledHarmlessly(c: Ctx, n: Node)
    requires Harmless(n) && n.down != []
    ensures Harmless(DeliverTo(c, n)) && DeliverTo(c, n).server.disk == n.server.disk
  {
    var t := n.down[0];
    assert t in n.down;
    assert forall j | 0 < j < |n.down| :: CommitFirst(n.down[0], n.down[j]);
    if t.msg.Commit? {
      CommitOnClean(n.server, t.msg.fileId);
    } else if t.msg.Vote? && n.server.Clean() {
      assert FirstMissing(n.server.updateMap, 0) == 0;
    }
  }

  lemma NetworkHarmless(n: Node, step: Step)
    requires step.Lose? || step.Duplicate? || step.Reorder?
    requires if step.Reorder? then step.i + 1 < |Link(n, step.up)| else step.i < |Link(n, step.up)|
    requires step.Reorder? ==> MayOvertake(Link(n, step.up)[step.i], Link(n, step.up)[step.i + 1])
    requires Harmless(n)
    ensures Harmless(NetworkStep(n, step)) && NetworkStep(n, step).server == n.server
  {
    if !step.up {
      QueueOrders(n.down, step.i, CommitFirst);
      QueueMembers(n.down, step.i);
    }
    hide Without, Doubled, Exchanged;
  }

  lemma MulticastHarmless(nodes: map<NodeId, Node>, ms: seq<Message>, epoch: nat, phase: nat, s: NodeId)
    requires s in nodes && Harmless(nodes[s]) && forall m | m in ms :: !m.Commit?
    ensures Harmless(Multicast(nodes, ms, epoch, phase)[s])
    ensures Multicast(nodes, ms, epoch, phase)[s].server == nodes[s].server
  {
    TagMembers(ms, epoch, phase);
    AppendOrders(nodes[s].down, Tag(ms, epoch, phase), CommitFirst);
  }

  /** The ABORT of a failed Commit runs, or the call has returned. */
  predicate GivingUp(c: Ctx) {
    c.phase.None? || c.phase == Some(ABORT_OP)
  }

  ghost predicate FilesKept(st: State, log: seq<Txn>) {
    GivingUp(st.ctx) && forall s | s in st.nodes :: Harmless(st.nodes[s]) && st.nodes[s].server.disk == DiskAfter(log)
  }

  lemma AbortReaction(c: Ctx, from: NodeId, m: Message)
    requires c.client.Valid() && c.phase == Some(ABORT_OP)
    ensures React(c, from, m).1 == [] && GivingUp(React(c, from, m).0)
  {
    var a, d := OnPacket(c.client, c.phase.value, c.recv, c.fd, from, m), AfterPacket(c, from, m);
    assert a.resend == [] && d.phase == c.phase;
    hide OnPacket, AfterPacket, Leave;
    ReactReceive(c, from, m, a, d);
    if a.exit.Some? {
      AbortIsLeft(d, a.exit.value, from in c.client.serverIds);
    }
  }

  lemma AbortIsLeft(c: Ctx, ret: Ret, checked: bool)
    requires c.client.Valid() && c.phase == Some(ABORT_OP)
    ensures Leave(c, ret, checked).phase.None?
  {
    LeaveAbortFields(c, ret);
    hide LeaveAbort;
  }

  /** What a step that is no call makes of the client and the history. */
  lemma DoContext(st: State, step: Step)
    requires Sane(st) && Enabled(st, step) && !IsCall(step)
    ensures var c, d := st.ctx, Do(st, step).ctx;
            match step
            case Repeat => d == c.(asked := true)
            case Receive(s) => d == React(c, s, st.nodes[s].up[0].msg).0
            case ReceiveForeign(from, m) => d == React(c, from, m).0
            case TimeOut => d == Leave(c, Finish(c.client, c.phase.value, c.recv), false)
            case _ => d == c
  {
    hide React, Leave, Multicast, DeliverTo, NetworkStep;
  }

  lemma GivingUpStays(st: State, step: Step)
    requires Sane(st) && Enabled(st, step) && !IsCall(step) && GivingUp(st.ctx)
    ensures GivingUp(Do(st, step).ctx)
    ensures step.Receive? ==> React(st.ctx, step.s, st.nodes[step.s].up[0].msg).1 == []
    ensures step.ReceiveForeign? ==> React(st.ctx, step.from, step.m).1 == []
  {
    DoContext(st, step);
    hide React, Leave, Do;
    if step.Receive? {
      AbortReaction(st.ctx, step.s, st.nodes[step.s].up[0].msg);
    } else if step.ReceiveForeign? {
      AbortReaction(st.ctx, step.from, step.m);
    } else if step.TimeOut? {
      AbortIsLeft(st.ctx, Finish(st.ctx.client, st.ctx.phase.value, st.ctx.recv), false);
    }
  }

  lemma StepKeepsFiles(st: State, step: Step, log: seq<Txn>)
    requires Sane(st) && Enabled(st, step) && !IsCall(step) && FilesKept(st, log)
    ensures FilesKept(Do(st, step), log)
  {
    GivingUpStays(st, step);
    hide Do, Harmless, DiskAfter, GivingUp, React;
    forall s | s in st.nodes
      ensures Harmless(Do(st, step).nodes[s]) && Do(st, step).nodes[s].server.disk == st.nodes[s].server.disk
    {
      StepAtNode(st, step, s);
    }
    OtherKeys(st, step);
  }

  lemma StepAtNode(st: State, step: Step, s: NodeId)
    requires Sane(st) && Enabled(st, step) && !IsCall(step) && s in st.nodes && Harmless(st.nodes[s])
    requires GivingUp(st.ctx)
    requires step.Receive? ==> React(st.ctx, step.s, st.nodes[step.s].up[0].msg).1 == []
    requires step.ReceiveForeign? ==> React(st.ctx, step.from, step.m).1 == []
    ensures Harmless(Do(st, step).nodes[s]) && Do(st, step).nodes[s].server.disk == st.nodes[s].server.disk
  {
    var c, n := st.ctx, st.nodes[s];
    if step.Repeat? {
      MulticastHarmless(st.nodes, [Request(c.phase.value, c.fd, c.fileName)], c.epoch, c.begun, s);
    } else if step.Receive? {
      var popped := st.nodes[step.s := st.nodes[step.s].(up := st.nodes[step.s].up[1..])];
      assert Harmless(popped[s]);
      MulticastHarmless(popped, [], c.epoch, c.begun, s);
    } else if step.ReceiveForeign? {
      MulticastHarmless(st.nodes, [], c.epoch, c.begun, s);
    } else if step == Deliver(s) {
      HandledHarmlessly(c, n);
    } else if (step.Lose? || step.Duplicate? || step.Reorder?) && step.s == s {
      NetworkHarmless(n, step);
    }
    hide Harmless, DeliverTo, NetworkStep, Multicast, React, Leave, Onward, WithinCall, Continues;
  }

  lemma {:induction false} RunKeepsFiles(st: State, steps: seq<Step>, log: seq<Txn>)
    requires Sane(st) && NoCalls(steps) && RunFrom(st, steps).Some? && FilesKept(st, log)
    ensures FilesKept(RunFrom(st, steps).value, log)
  {
    if steps != [] {
      var n := |steps| - 1;
      assert steps[n] in steps;
      RunKeepsFiles(st, steps[..n], log);
      StepKeepsFiles(RunFrom(st, steps[..n]).value, steps[n], log);
      hide Do, Enabled, Sane, FilesKept;
    }
  }

  /** A step that gives up a vote leaves the servers alone. */
  lemma GivesUpVote(st: State, step: Step)
    requires Sane(st) && Enabled(st, step) && Members(st) && CtxInv(st.ctx) && NodesInv(st.ctx, st.nodes)
    requires st.ctx.phase == Some(VOTE_OP) && Do(st, step).ctx.phase == Some(ABORT_OP)
    ensures step.TimeOut?
    ensures Do(st, step).nodes == st.nodes
  {
    hide *;
    CtxBasics(st.ctx);
    AsMember(st);
    VoteIsNoAbort(st.ctx);
    if step.Receive? {
      DoReceive(st, step);
      NodeOf(st.ctx, st.nodes, step.s);
      AnswerDoesNotGiveUp(st.ctx, step.s, st.nodes[step.s]);
    } else {
      DoOtherwise(st, step);
      if step.ReceiveForeign? {
        ForeignReaction(st.ctx, step.from, step.m);
        NormalDoesNotGiveUp(st.ctx);
      } else if step.TimeOut? {
        TimeOutNodes(st);
      }
    }
  }

  lemma VoteIsNoAbort(c: Ctx)
    ensures c.phase == Some(VOTE_OP) ==> c.phase != Some(ABORT_OP)
  {
  }

  lemma TimeOutNodes(st: State)
    requires Sane(st) && Enabled(st, TimeOut)
    ensures Do(st, TimeOut).nodes == st.nodes
  {
    hide Leave;
  }

  lemma NormalDoesNotGiveUp(c: Ctx)
    requires c.client.Valid() && c.phase == Some(VOTE_OP)
    ensures Leave(c, NormalReturn, false).phase != Some(ABORT_OP)
  {
    hide BeginDecision;
  }

  lemma AnswerDoesNotGiveUp(c: Ctx, s: NodeId, n: Node)
    requires CtxInv(c) && NodeInv(c, s, n) && c.phase == Some(VOTE_OP) && n.up != []
    ensures React(c, s, n.up[0].msg).0.phase != Some(ABORT_OP)
  {
    hide *;
    CtxPieces(c);
    ClosingPart(c, s, n);
    CoreParts(c, s, n);
    OnOwnLink(c, s, n);
    VoteRuns(c);
    FirstUpOk(c, n);
    MemberPacket(c, s, n);
    var m := n.up[0].msg;
    var a, d := OnPacket(c.client, VOTE_OP, c.recv, c.fd, s, m), AfterPacket(c, s, m);
    ReactReceive(c, s, m, a, d);
    if a.exit.Some? {
      NoErrorNoAbort(d, a.exit.value, s in c.client.serverIds);
    }
    VoteIsNoAbort(c);
  }

  lemma FirstUpOk(c: Ctx, n: Node)
    requires UpOk(c, n) && n.up != []
    ensures UpMsgOk(c, n.server, n.up[0])
  {
    assert n.up[0] in n.up;
  }

  lemma NoErrorNoAbort(d: Ctx, ret: Ret, checked: bool)
    requires d.client.Valid() && d.phase == Some(VOTE_OP) && ret != ErrorReturn
    ensures Leave(d, ret, checked).phase != Some(ABORT_OP)
  {
    hide BeginDecision, Onward, WithinCall;
  }

  /** A Commit whose vote failed has changed no byte of any file: not when it gives up, not
      while its ABORT runs, whether that completes or not, and not after it has returned,
      until the next call. */
  lemma FailedVoteChangesNothing(ids: set<NodeId>, fifo: bool, steps: seq<Step>, st: State, step: Step, r: State)
    requires Reached(ids, fifo, steps, st) && st.ctx.phase == Some(VOTE_OP) && Enabled(st, step)
    requires Do(st, step).ctx.phase == Some(ABORT_OP) && Leads(Do(st, step), r)
    ensures |st.ctx.log| == st.ctx.callLog
    ensures forall s | s in r.nodes :: r.nodes[s].server.disk == DiskAfter(st.ctx.log)
  {
    hide *;
    ReachedMeans(ids, fifo, steps, st);
    GoodMeans(st.ctx, st.nodes);
    GivesUpVote(st, step);
    VoteLog(st.ctx);
    NodesKept(st.ctx, Do(st, step));
    KeptAfter(Do(st, step), r, st.ctx.log);
  }

  lemma VoteLog(c: Ctx)
    requires CtxInv(c) && c.phase == Some(VOTE_OP)
    ensures |c.log| == c.callLog
  {
    hide PhaseInv;
  }

  lemma NodesKept(c: Ctx, d: State)
    requires CtxInv(c) && NodesInv(c, d.nodes) && c.phase == Some(VOTE_OP) && d.ctx.phase == Some(ABORT_OP)
    ensures FilesKept(d, c.log)
  {
    hide CtxInv, NodeInv, Harmless, DiskAfter;
    forall s | s in d.nodes
      ensures Harmless(d.nodes[s]) && d.nodes[s].server.disk == DiskAfter(c.log)
    {
      NodeOf(c, d.nodes, s);
      ClosingPart(c, s, d.nodes[s]);
      CtxPieces(c);
      VotingIsHarmless(c, s, d.nodes[s]);
    }
  }

  lemma KeptAfter(d: State, r: State, log: seq<Txn>)
    requires Sane(d) && Leads(d, r) && FilesKept(d, log)
    ensures forall s | s in r.nodes :: r.nodes[s].server.disk == DiskAfter(log)
  {
    var more :| NoCalls(more) && RunFrom(d, more) == Some(r);
    hide RunFrom, NoCalls, Harmless, DiskAfter;
    RunKeepsFiles(d, more, log);
  }

  // ----------------------------------------------------- after a COMMIT phase that failed

  /** A full set ends an OPEN, COMMIT or ABORT phase at once. */
  predicate Unfilled(c: Ctx) {
    c.phase.Some? && IsDecision(c.phase.value) && |c.recv| == c.client.numServers ==> c.client.numServers == 0
  }

  /** A phase that begins has counted no answer, unless it is the second CLOSE pass. */
  predicate Fresh(d: Ctx) {
    d.recv == {} || d.phase.None? || !IsDecision(d.phase.value)
  }

  lemma LeaveVoteFresh(c: Ctx, ret: Ret, checked: bool)
    requires c.client.Valid() && c.phase == Some(VOTE_OP)
    ensures Fresh(LeaveVote(c, ret, checked))
  {
    hide BeginDecision, CurrentTxn;
  }

  lemma LeaveCommitFresh(c: Ctx, ret: Ret)
    ensures Fresh(LeaveCommit(c, ret)) && Fresh(LeaveClose(c, ret))
  {
    hide BeginDecision, StartPhase, Onward, WithinCall;
  }

  lemma LeaveFresh(c: Ctx, ret: Ret, checked: bool)
    requires c.client.Valid() && c.phase.Some? && c.phase.value != INIT_OP
    ensures Fresh(Leave(c, ret, checked))
  {
    LeaveCommitFresh(c, ret);
    LeaveAbortFields(c, ret);
    hide LeaveVote, LeaveCommit, LeaveAbort, LeaveClose, Onward, WithinCall;
    if c.phase == Some(VOTE_OP) {
      LeaveVoteFresh(c, ret, checked);
    }
  }

  lemma LeaveUnfilled(c: Ctx, ret: Ret, checked: bool)
    requires c.client.Valid() && c.phase.Some? && c.phase.value != INIT_OP
    ensures Unfilled(Leave(c, ret, checked))
  {
    LeaveFresh(c, ret, checked);
    hide Leave, IsDecision;
  }

  lemma ReactUnfilled(c: Ctx, from: NodeId, m: Message)
    requires c.client.Valid() && c.phase.Some? && c.phase.value != INIT_OP && Unfilled(c)
    ensures Unfilled(React(c, from, m).0)
  {
    var a, d := OnPacket(c.client, c.phase.value, c.recv, c.fd, from, m), AfterPacket(c, from, m);
    if a.exit.Some? {
      LeaveUnfilled(d, a.exit.value, from in c.client.serverIds);
    } else {
      OpenSet(c, from, m);
    }
    hide OnPacket, Leave, Unfilled, AfterPacket;
  }

  lemma OpenSet(c: Ctx, from: NodeId, m: Message)
    requires c.client.Valid() && c.phase.Some? && c.phase.value != INIT_OP && Unfilled(c)
    requires OnPacket(c.client, c.phase.value, c.recv, c.fd, from, m).exit.None?
    ensures Unfilled(AfterPacket(c, from, m))
  {
    hide OnVoteAck;
  }

  lemma CallUnfilled(c: Ctx, call: Step)
    requires c.client.Valid() && IsCall(call) && c.phase.None?
    ensures Unfilled(CalledCtx(c, call))
  {
    hide StartPhase, BeginDecision, CloseSafe, CurrentTxn, Onward, IsDecision;
  }

  lemma StepUnfilled(st: State, step: Step)
    requires Sane(st) && Enabled(st, step) && Unfilled(st.ctx)
    ensures Unfilled(Do(st, step).ctx)
  {
    var c := st.ctx;
    assert c.client.Valid();
    if IsCall(step) {
      IsRunningOrNot(st, step);
      CallEffect(st, step);
      hide *;
      CallUnfilled(c, step);
    } else {
      DoContext(st, step);
      IsEnabled(st, step);
      hide *;
      if step.TimeOut? {
        LeaveUnfilled(c, Finish(c.client, c.phase.value, c.recv), false);
      } else if step.ReceiveForeign? {
        ReactUnfilled(c, step.from, step.m);
      } else if step.Receive? {
        ReactUnfilled(c, step.s, st.nodes[step.s].up[0].msg);
      } else {
        AskedUnfilled(c);
      }
    }
  }

  lemma AskedUnfilled(c: Ctx)
    requires Unfilled(c)
    ensures Unfilled(c.(asked := true))
  {
  }

  lemma IsEnabled(st: State, step: Step)
    requires Enabled(st, step)
    ensures step.Repeat? || step.Receive? || step.ReceiveForeign? || step.TimeOut? ==>
              st.ctx.phase.Some? && st.ctx.phase.value != INIT_OP
    ensures step.Receive? ==> step.s in st.nodes && st.nodes[step.s].up != []
  {
  }

  lemma {:induction false} RunUnfilled(ids: set<NodeId>, fifo: bool, steps: seq<Step>)
    requires Run(ids, fifo, steps).Some?
    ensures Unfilled(Run(ids, fifo, steps).value.ctx)
  {
    if steps != [] {
      var n := |steps| - 1;
      RunUnfilled(ids, fifo, steps[..n]);
      StepUnfilled(Run(ids, fifo, steps[..n]).value, steps[n]);
      hide Do, Unfilled;
    }
  }

  /** Whether or not it has carried out the COMMIT already, once it handles one more. */
  lemma CommitCarriedOut(c: Ctx, s: NodeId, n: Node, m: Node, t: Tagged)
    requires CtxInv(c) && NodeInv(c, s, n) && c.phase == Some(COMMIT_OP) && t.msg.Commit?
    requires m.server == n.server && m.down == [t]
    ensures m.server.Valid() && DeliverTo(c, m).server.disk == DiskAfter(c.log)
  {
    if n.seen == c.epoch {
      assert LastHandled(c, n, COMMIT_OP);
      CommitOnClean(n.server, t.msg.fileId);
    } else {
      CommitOnComplete(c, n, t.msg.fileId);
    }
    hide ServerStep, CtxInv, NodeInv, DiskAfter;
  }

  /** Nobody answers any more: the COMMIT phase and then the ABORT phase time out. */
  lemma BothTimeOut(c: Ctx)
    requires c.client.Valid() && c.phase == Some(COMMIT_OP) && |c.recv| < c.client.numServers && c.call != ABORT_OP
    ensures var d := Leave(c, Finish(c.client, COMMIT_OP, c.recv), false).(asked := true);
            && d.phase == Some(ABORT_OP) && d.client.Valid() && Finish(d.client, ABORT_OP, d.recv) == ErrorReturn
            && Leave(d, ErrorReturn, false).returned == Returned(c.call, false)
            && Leave(d, ErrorReturn, false).log == c.log && Leave(d, ErrorReturn, false).callLog == c.callLog
  {
    GivesUp(c);
    var d := Leave(c, Finish(c.client, COMMIT_OP, c.recv), false).(asked := true);
    hide Leave;
    LeaveAbortFields(d, ErrorReturn);
    LeaveIsLeaveAbort(d);
  }

  lemma GivesUp(c: Ctx)
    requires c.client.Valid() && c.phase == Some(COMMIT_OP) && |c.recv| < c.client.numServers
    ensures var d := Leave(c, Finish(c.client, COMMIT_OP, c.recv), false);
            && d.phase == Some(ABORT_OP) && d.client == c.client && d.recv == {} && d.call == c.call
            && d.log == c.log && d.callLog == c.callLog
  {
    hide Clear;
  }

  lemma LeaveIsLeaveAbort(c: Ctx)
    requires c.client.Valid() && c.phase == Some(ABORT_OP)
    ensures Leave(c, ErrorReturn, false) == LeaveAbort(c, ErrorReturn)
  {
    hide LeaveAbort;
  }

  /** The running phase asks once more and then meets its deadline. */
  lemma MeetDeadline(st: State, r: State) returns (d: State)
    requires Sane(st) && Leads(st, r) && Sane(r) && Running(r.ctx) && r.ctx.phase.Some? && r.ctx.phase.value != INIT_OP
    ensures Leads(st, d) && Sane(d) && d.nodes.Keys == r.nodes.Keys && r.ctx.client.Valid()
    ensures d.ctx == Leave(r.ctx.(asked := true), Finish(r.ctx.client, r.ctx.phase.value, r.ctx.recv), false)
    ensures forall s | s in r.nodes :: d.nodes[s].server == r.nodes[s].server
  {
    AllValid(r);
    ReceiveIsNoCall(0);
    DoRepeat(r);
    var m := Do(r, Repeat);
    assert forall s | s in r.nodes :: m.nodes[s].server == r.nodes[s].server by { hide Do, Enabled, Sane; }
    hide Do, Enabled, Sane, Leads, Multicast, Leave;
    LeadsOn(st, r, Repeat);
    StillRunning(r.ctx);
    DoTimeOut(m);
    LeadsOn(st, m, TimeOut);
    d := Do(m, TimeOut);
  }

  lemma StillRunning(c: Ctx)
    requires Running(c)
    ensures Running(c.(asked := true)) && !IsCall(TimeOut)
  {
  }

  /** Everything else under way is lost, and the COMMIT is sent again. */
  lemma CommitAgain(st: State, s: NodeId) returns (m: State, t: Tagged)
    requires Sane(st) && st.ctx.phase == Some(COMMIT_OP) && s in st.nodes
    ensures Leads(st, m) && Sane(m) && m.ctx == st.ctx.(asked := true) && s in m.nodes && t.msg.Commit?
    ensures m.nodes[s].server == st.nodes[s].server && m.nodes[s].down == [t]
  {
    t := Tagged(Asking(st.ctx), st.ctx.epoch, st.ctx.begun);
    assert t.msg.Commit?;
    DecisionRuns(st.ctx);
    LoseAll(st, true);
    var bare := st.(nodes := BareNodes(st.nodes, st.nodes.Keys, true));
    assert bare.nodes[s].down == [] && bare.nodes[s].server == st.nodes[s].server;
    hide *;
    DoRepeat(bare);
    ReceiveIsNoCall(s);
    LeadsOn(st, bare, Repeat);
    m := Do(bare, Repeat);
    MulticastOne(bare.nodes, Asking(st.ctx), st.ctx.epoch, st.ctx.begun, s);
  }

  /** `s` is made to carry out the COMMIT. */
  lemma CommitAt(st: State, s: NodeId) returns (d: State)
    requires Sane(st) && CtxInv(st.ctx) && NodesInv(st.ctx, st.nodes) && st.ctx.phase == Some(COMMIT_OP)
    requires s in st.nodes
    ensures Leads(st, d) && Sane(d) && d.ctx == st.ctx.(asked := true) && s in d.nodes
    ensures d.nodes[s].server.disk == DiskAfter(st.ctx.log)
  {
    hide *;
    var m, t := CommitAgain(st, s);
    NodeOf(st.ctx, st.nodes, s);
    CommitCarriedOut(st.ctx, s, st.nodes[s], m.nodes[s], t);
    AskedAlike(st.ctx, m.nodes[s]);
    DoDeliver(m, s);
    ReceiveIsNoCall(s);
    LeadsOn(st, m, Deliver(s));
    d := Do(m, Deliver(s));
  }

  /** From every reached COMMIT phase, some continuation makes the call return an error
      after server `s` has applied the transaction: with a transaction that changes the
      disk, that Commit (or CloseFile) fails and has changed files. */
  lemma FailedCommitCanChangeFiles(ids: set<NodeId>, fifo: bool, steps: seq<Step>, st: State, s: NodeId)
        returns (r: State)
    requires Reached(ids, fifo, steps, st) && Committing(st.ctx) && s in st.nodes
    ensures Leads(st, r) && r.ctx.returned == Returned(st.ctx.call, false)
    ensures r.ctx.callLog == st.ctx.callLog == |st.ctx.log| - 1 && r.ctx.log == st.ctx.log
    ensures s in r.nodes && r.nodes[s].server.disk == DiskAfter(st.ctx.log)
  {
    hide *;
    ReachedMeans(ids, fifo, steps, st);
    GoodMeans(st.ctx, st.nodes);
    CommittingMeans(ids, fifo, steps, st, s);
    var d := CommitAt(st, s);
    AlreadyAsked(d.ctx);
    DecisionRuns(d.ctx);
    BothTimeOut(st.ctx.(asked := true));
    var e := MeetDeadline(st, d);
    DecisionRuns(e.ctx);
    r := MeetDeadline(st, e);
  }

  lemma DecisionRuns(c: Ctx)
    requires c.phase == Some(COMMIT_OP) || c.phase == Some(ABORT_OP)
    ensures Running(c) && c.phase.Some? && c.phase.value != INIT_OP
  {
  }

  lemma CommittingMeans(ids: set<NodeId>, fifo: bool, steps: seq<Step>, st: State, s: NodeId)
    requires Reached(ids, fifo, steps, st) && Committing(st.ctx) && s in st.nodes
    ensures st.ctx.phase == Some(COMMIT_OP) && st.ctx.client.Valid() && |st.ctx.recv| < st.ctx.client.numServers
    ensures (st.ctx.call == COMMIT_OP || st.ctx.call == CLOSE_OP) && |st.ctx.log| == st.ctx.callLog + 1
  {
    RunUnfilled(ids, fifo, steps);
    ReachedInv(ids, fifo, steps, st);
    hide NodesInv, PhaseInv, Run;
    SubsetCardinality(st.ctx.recv, st.ctx.client.serverIds);
    assert s in st.ctx.client.serverIds;
  }

  // ------------------------------------------------- after a vote that was left unchecked

  lemma FullSetPasses(c: Ctx)
    requires c.client.Valid() && c.phase == Some(VOTE_OP) && |c.recv| == c.client.numServers
    ensures Finish(c.client, VOTE_OP, c.recv) == NormalReturn
    ensures var d := Leave(c.(asked := true), NormalReturn, false);
            && d.phase == Some(COMMIT_OP) && d.recv == {} && d.client == c.client && d.call == c.call
            && d.log == c.log + [CurrentTxn(c)]
  {
    assert CurrentTxn(c.(asked := true)) == CurrentTxn(c);
    hide CurrentTxn;
    hide Clear;
  }

  lemma AnyCommitAnswered(c: Ctx, n: Node, t: Tagged)
    requires n.server.Valid() && n.down == [] && t.msg.Commit?
    ensures var m, sv := DeliverTo(c, n.(down := [t])), n.server;
            && HasAnswer(m, COMMIT_OP)
            && m.server.disk == CommitTo(sv.disk, sv.fileName, UpdateList(sv.updateMap, sv.nextUpdateId))
  {
    var m := DeliverTo(c, n.(down := [t]));
    assert m.up[|n.up|].msg == PlainAnswer(COMMIT_OP);
  }

  lemma CommitReturns(c: Ctx, e: Ctx)
    requires e.client.Valid() && e.phase == Some(COMMIT_OP) && e.call == COMMIT_OP
    requires e == c.(asked := true, recv := e.recv, heard := e.heard)
    ensures Leave(e, NormalReturn, true).returned == Returned(COMMIT_OP, true)
    ensures Leave(e, NormalReturn, true).log == c.log
  {
    hide StartPhase, BeginDecision;
  }

  lemma LeadsToBare(st: State, d: State) returns (bare: State)
    requires Sane(st) && Leads(st, d) && Sane(d)
    ensures Leads(st, bare) && Sane(bare) && bare.ctx == d.ctx && bare.nodes.Keys == d.nodes.Keys
    ensures forall r | r in d.nodes :: bare.nodes[r].down == [] && bare.nodes[r].server == d.nodes[r].server
  {
    bare := d.(nodes := BareNodes(d.nodes, d.nodes.Keys, true));
    hide Sane, Leads;
    LoseSome(st, d, d.nodes.Keys, true);
    LeadsTo(st, bare);
  }

  lemma CommitIsSent(c: Ctx)
    requires c.phase == Some(COMMIT_OP)
    ensures Running(c) && c.phase.Some? && c.phase.value != INIT_OP && Asking(c).Commit? && IsPlain(COMMIT_OP)
  {
  }

  /** All servers carry out the COMMIT with what they have. */
  lemma CommitEverywhere(bare: State) returns (f: State)
    requires Sane(bare) && Members(bare) && bare.ctx.phase == Some(COMMIT_OP) && bare.ctx.recv == {}
    requires forall r | r in bare.nodes :: bare.nodes[r].down == []
    ensures Leads(bare, f) && Sane(f) && ToCount(f, f.nodes.Keys, COMMIT_OP) && OnlyRead(f, f)
    ensures f.ctx == bare.ctx.(asked := true) && f.nodes.Keys == bare.nodes.Keys
    ensures forall r | r in bare.nodes ::
              var sv := bare.nodes[r].server;
              sv.Valid() && f.nodes[r].server.disk ==
                CommitTo(sv.disk, sv.fileName, UpdateList(sv.updateMap, sv.nextUpdateId))
  {
    CommitIsSent(bare.ctx);
    hide *;
    var t;
    f, t := AskSome(bare, bare.nodes.Keys);
    forall r | r in bare.nodes
      ensures HasAnswer(f.nodes[r], COMMIT_OP)
      ensures var sv := bare.nodes[r].server;
              f.nodes[r].server.disk == CommitTo(sv.disk, sv.fileName, UpdateList(sv.updateMap, sv.nextUpdateId))
    {
      AnyCommitAnswered(f.ctx, bare.nodes[r], t);
    }
    CountsAll(bare, f, COMMIT_OP);
  }

  /** ... and all answers are counted. */
  lemma CommitAnyway(st: State, d: State, s: NodeId) returns (last: State)
    requires Sane(st) && Leads(st, d) && Sane(d) && Members(d) && s in d.nodes
    requires d.ctx.phase == Some(COMMIT_OP) && d.ctx.recv == {} && d.ctx.call == COMMIT_OP
    ensures Leads(st, last) && last.ctx.returned == Returned(COMMIT_OP, true) && last.ctx.log == d.ctx.log
    ensures s in last.nodes
    ensures var sv := d.nodes[s].server;
            && sv.Valid()
            && last.nodes[s].server.disk == CommitTo(sv.disk, sv.fileName, UpdateList(sv.updateMap, sv.nextUpdateId))
  {
    hide *;
    var bare := LeadsToBare(st, d);
    MembersFrom(d, bare);
    var f := CommitEverywhere(bare);
    LeadsTransitive(st, bare, f);
    SomeKey(f.nodes, s);
    var e;
    last, e := CountAll(st, f, f, f.nodes.Keys, COMMIT_OP);
    SameServer(f.nodes, last.nodes, s);
    AskedRead(d.ctx, f.ctx, e);
    CommitReturns(d.ctx, e);
  }

  /** A Commit that meets its deadline in a round entered with a full set is not safe. From
      every reached VOTE phase with such a set, if server `s` knows of fewer updates than are
      cached, some continuation makes Commit return normally although `s` has applied a
      proper prefix of them only. */
  lemma UncheckedCommitAppliesLess(ids: set<NodeId>, fifo: bool, steps: seq<Step>, st: State, s: NodeId)
        returns (r: State)
    requires Reached(ids, fifo, steps, st) && st.ctx.phase == Some(VOTE_OP) && st.ctx.call == COMMIT_OP
    requires st.ctx.recv == st.nodes.Keys && s in st.nodes && st.nodes[s].server.nextUpdateId < st.ctx.client.updateId
    ensures Leads(st, r) && r.ctx.returned == Returned(COMMIT_OP, true)
    ensures r.ctx.log == st.ctx.log + [CurrentTxn(st.ctx)]
    ensures s in r.nodes
    ensures var sv := st.nodes[s].server;
            var applied := UpdateList(sv.updateMap, sv.nextUpdateId);
            && applied < CurrentTxn(st.ctx).updates
            && r.nodes[s].server.disk == CommitTo(DiskAfter(st.ctx.log), st.ctx.fileName, applied)
  {
    VotingServer(ids, fifo, steps, st, s);
    hide *;
    ReachedMeans(ids, fifo, steps, st);
    AllValid(st);
    AllCountedNow(st);
    LeadsSelf(st);
    VoteRuns(st.ctx);
    FullSetPasses(st.ctx);
    var d := MeetDeadline(st, st);
    MembersFrom(st, d);
    r := CommitAnyway(st, d, s);
  }

  lemma VoteRuns(c: Ctx)
    requires c.phase == Some(VOTE_OP)
    ensures Running(c) && c.phase.Some? && c.phase.value != INIT_OP
  {
  }

  lemma AllCountedNow(st: State)
    requires Members(st) && st.ctx.recv == st.nodes.Keys
    ensures |st.ctx.recv| == st.ctx.client.numServers
  {
  }

  lemma VotingServer(ids: set<NodeId>, fifo: bool, steps: seq<Step>, st: State, s: NodeId)
    requires Reached(ids, fifo, steps, st) && st.ctx.phase == Some(VOTE_OP) && s in st.nodes
    ensures st.ctx.client.Valid()
    ensures var sv := st.nodes[s].server;
            && sv.Valid() && sv.disk == DiskAfter(st.ctx.log) && sv.fileName == st.ctx.fileName
            && (sv.nextUpdateId < st.ctx.client.updateId ==>
                UpdateList(sv.updateMap, sv.nextUpdateId) < CurrentTxn(st.ctx).updates)
  {
    hide *;
    ReachedMeans(ids, fifo, steps, st);
    GoodMeans(st.ctx, st.nodes);
    CtxPieces(st.ctx);
    NodeOf(st.ctx, st.nodes, s);
    ClosingPart(st.ctx, s, st.nodes[s]);
    CoreParts(st.ctx, s, st.nodes[s]);
    VoteIsEven(st.ctx);
    ServerInVote(st.ctx, st.nodes[s]);
    PrefixIsApplied(st.ctx, st.nodes[s].server);
  }

  lemma ServerInVote(c: Ctx, n: Node)
    requires ServerOk(c, n) && !Deciding(c)
    ensures n.server.Valid() && n.server.disk == DiskAfter(c.log) && n.server.fileName == c.fileName
    ensures Submap(n.server.updateMap, c.client.updateMap)
  {
    hide DiskAfter;
  }

  lemma PrefixIsApplied(c: Ctx, sv: Server)
    requires c.client.Valid() && sv.Valid() && Submap(sv.updateMap, c.client.updateMap)
    ensures sv.nextUpdateId < c.client.updateId ==> UpdateList(sv.updateMap, sv.nextUpdateId) < CurrentTxn(c).updates
  {
  }
}
