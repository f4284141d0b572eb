/** Other runs with the same client history. While no vote is taken and no decision on cached
    blocks is carried out, the client cannot tell which blocks have arrived, nor which of
    several equal requests an answer is to: any server may still owe answers to all phases
    since the last one it was heard in, and may hold the blocks accepted later or not. */
module Spares {
  import opened FileModel
  import opened Messages
  import opened ServerSpec
  import opened ClientSpec
  import opened Network
  import opened Protocol
  import opened Invariant
  import opened Reachability
  import opened Theorems
  import opened Runs
  import opened Dates

  /** No vote is being taken and no COMMIT or ABORT of cached blocks is under way. */
  predicate Waiting(c: Ctx) {
    c.phase.None? || c.phase == Some(OPEN_OP) || c.phase == Some(CLOSE_OP) || Idle(c)
  }

  predicate IsPlain(op: Op) {
    op == OPEN_OP || op == COMMIT_OP || op == ABORT_OP || op == CLOSE_OP
  }

  /** What a server that holds no update answers. */
  function PlainAnswer(op: Op): Message {
    match op
    case OPEN_OP => OpenFileAck(0)
    case COMMIT_OP => CommitAck(0)
    case ABORT_OP => AbortAck(0)
    case _ => CloseAck(0)
  }

  /** One such answer to each phase from number `i` up to `j`, without `j`. */
  function Answers(phases: seq<Phase>, i: nat, j: nat): Queue {
    if j <= i || j > |phases| then []
    else
      var p := phases[j - 1];
      Answers(phases, i, j - 1) + if IsPlain(p.op) then [Tagged(PlainAnswer(p.op), p.epoch, j - 1)] else []
  }

  lemma {:induction false} SameAnswers(p: seq<Phase>, q: seq<Phase>, i: nat, j: nat)
    requires p <= q && j <= |p|
    ensures Answers(p, i, j) == Answers(q, i, j)
  {
    if i < j {
      SameAnswers(p, q, i, j - 1);
    }
  }

  lemma {:induction false} AnswersSplit(phases: seq<Phase>, i: nat, k: nat, j: nat)
    requires i <= k <= j <= |phases|
    ensures Answers(phases, i, j) == Answers(phases, i, k) + Answers(phases, k, j)
  {
    if k < j {
      AnswersSplit(phases, i, k, j - 1);
    }
  }

  /** The answer to phase `k` comes right after those to earlier ones. */
  lemma AnswerAt(phases: seq<Phase>, i: nat, k: nat, j: nat)
    requires i <= k < j <= |phases| && IsPlain(phases[k].op)
    ensures var before := |Answers(phases, i, k)|;
            && before < |Answers(phases, i, j)| && Answers(phases, i, j)[before..] == Answers(phases, k, j)
            && Answers(phases, k, j)[0] == Tagged(PlainAnswer(phases[k].op), phases[k].epoch, k)
  {
    AnswersSplit(phases, i, k, j);
    AnswersSplit(phases, k, k + 1, j);
    assert Answers(phases, k, k + 1) == [Tagged(PlainAnswer(phases[k].op), phases[k].epoch, k)];
  }

  /** The number of phases whose request has been sent. */
  function AskedPhases(c: Ctx): nat {
    if c.phase.Some? && !c.asked then c.begun else c.begun + 1
  }

  /** Server `s` answers the phases up to number `k` only, all others every phase. */
  function AnsweredPhases(c: Ctx, r: NodeId, s: NodeId, k: nat): nat {
    if r == s && k < AskedPhases(c) then k + 1 else AskedPhases(c)
  }

  /** Nothing is on the way to the server, its answers are all on the way back, and it holds
      an update if it is `s` and a block was accepted once phase `k` had begun. */
  ghost predicate Spared(c: Ctx, r: NodeId, n: Node, s: NodeId, k: nat) {
    && n.down == [] && n.up == Answers(c.phases, Heard(c, r), AnsweredPhases(c, r, s, k))
    && (n.server.updateMap != map[] <==> r == s && k <= c.wrote)
  }

  ghost predicate AllSpared(b: State, s: NodeId, k: nat) {
    forall r | r in b.nodes :: Spared(b.ctx, r, b.nodes[r], s, k)
  }

  /** `b` ends another run with the client history of `a`. */
  ghost predicate SpareRun(ids: set<NodeId>, fifo: bool, a: State, b: State, s: NodeId, k: nat) {
    Occurs(ids, fifo, b) && b.ctx == a.ctx && b.nodes.Keys == a.nodes.Keys && AllSpared(b, s, k)
  }

  // ------------------------------------------------------------ what the client's steps change

  /** Phases may have begun, but none has asked; nothing was read or written. */
  predicate Grown(c: Ctx, d: Ctx) {
    d.heard == c.heard && d.wrote == c.wrote && c.phases <= d.phases && AskedPhases(d) == AskedPhases(c) <= |c.phases|
  }

  lemma GrownSpared(c: Ctx, d: Ctx, r: NodeId, n: Node, m: Node, s: NodeId, k: nat)
    requires Spared(c, r, n, s, k) && Grown(c, d)
    requires m.up == n.up && m.down == n.down && m.server.updateMap == n.server.updateMap
    ensures Spared(d, r, m, s, k)
  {
    SameAnswers(c.phases, d.phases, Heard(c, r), AnsweredPhases(c, r, s, k));
  }

  lemma StartGrown(c: Ctx, op: Op)
    requires |c.phases| == c.begun + 1 && (c.phase.None? || c.asked)
    ensures Grown(c, StartPhase(c, op)) && Grown(c, BeginDecision(c, op))
  {
    hide Clear;
  }

  lemma GrownFrame(c: Ctx, d: Ctx)
    requires d.heard == c.heard && d.wrote == c.wrote && d.phases == c.phases && d.begun == c.begun
    requires d.asked == c.asked
    requires (d.phase == c.phase || (d.phase.None? && c.asked)) && |c.phases| == c.begun + 1
    ensures Grown(c, d) && |d.phases| == d.begun + 1
  {
  }

  lemma GrownTwice(c: Ctx, d: Ctx, e: Ctx)
    requires Grown(c, d) && Grown(d, e)
    ensures Grown(c, e)
  {
  }

  lemma LeaveCommitGrown(c: Ctx, ret: Ret)
    requires |c.phases| == c.begun + 1 && c.asked && c.phase.Some?
    ensures Grown(c, LeaveCommit(c, ret))
  {
    hide Grown, BeginDecision, StartPhase;
    if ret != NormalReturn {
      GrownFrame(c, c.(tainted := true));
      StartGrown(c.(tainted := true), ABORT_OP);
      GrownTwice(c, c.(tainted := true), LeaveCommit(c, ret));
    } else {
      var d := EndDecision(c.(client := c.client.Reset()));
      GrownFrame(c, d);
      if c.call == CLOSE_OP {
        StartGrown(d, CLOSE_OP);
        GrownTwice(c, d, StartPhase(d, CLOSE_OP));
        SameGrown(c, StartPhase(d, CLOSE_OP), LeaveCommit(c, ret));
      } else {
        SameGrown(c, d, LeaveCommit(c, ret));
      }
    }
  }

  lemma SameGrown(c: Ctx, d: Ctx, e: Ctx)
    requires Grown(c, d) && e == d.(recv := e.recv, second := e.second, returned := e.returned)
    ensures Grown(c, e)
  {
  }

  lemma LeaveCloseGrown(c: Ctx, ret: Ret)
    requires |c.phases| == c.begun + 1 && c.asked && c.phase.Some?
    ensures Grown(c, LeaveClose(c, ret))
  {
    hide Grown, StartPhase;
    if ret == Again && !c.second {
      var d := c.(survivors := c.recv);
      GrownFrame(c, d);
      StartGrown(d, VOTE_OP);
      GrownTwice(c, d, LeaveClose(c, ret));
    } else {
      GrownFrame(c, LeaveClose(c, ret));
    }
  }

  lemma LeaveGrown(c: Ctx, ret: Ret, checked: bool)
    requires c.client.Valid() && c.phase.Some? && c.phase.value != INIT_OP && c.phase != Some(VOTE_OP)
    requires |c.phases| == c.begun + 1 && c.asked
    ensures Grown(c, Leave(c, ret, checked))
  {
    LeaveCommitGrown(c, ret);
    LeaveCloseGrown(c, ret);
    LeaveAbortFields(c, ret);
    hide LeaveCommit, LeaveClose, LeaveAbort, LeaveVote;
    hide Grown;
    if c.phase == Some(OPEN_OP) {
      GrownFrame(c, LeaveOpen(c, ret));
    } else if c.phase == Some(ABORT_OP) {
      GrownFrame(c, LeaveAbort(c, ret));
    }
  }

  lemma CalledGrown(c: Ctx, call: Step)
    requires |c.phases| == c.begun + 1 && c.client.Valid() && c.phase.None? && IsCall(call) && !call.CallWrite?
    ensures Grown(c, CalledCtx(c, call))
  {
    hide Grown, StartPhase, BeginDecision, CloseSafe, CurrentTxn, Onward;
    match call {
      case CallOpen(name) =>
        NamedGrown(c, Naming(c), OPEN_OP);
        NamedGrown(c, Naming(c).(prevName := c.fileName, fileName := name), OPEN_OP);
      case CallCommit => NamedGrown(c, Called(c, COMMIT_OP), VOTE_OP);
      case CallAbort => NamedGrown(c, Called(c, ABORT_OP), ABORT_OP);
      case CallClose => NamedGrown(c, Called(c, CLOSE_OP), CLOSE_OP);
    }
  }

  lemma NamedGrown(c: Ctx, d: Ctx, op: Op)
    requires |c.phases| == c.begun + 1 && c.phase.None? && d.phase.None?
    requires d.heard == c.heard && d.wrote == c.wrote && d.phases == c.phases && d.begun == c.begun
    requires d.asked == c.asked
    ensures Grown(c, StartPhase(d, op)) && Grown(c, BeginDecision(d, op))
  {
    hide Grown, StartPhase, BeginDecision;
    GrownFrame(c, d);
    StartGrown(d, op);
    GrownTwice(c, d, StartPhase(d, op));
    GrownTwice(c, d, BeginDecision(d, op));
  }

  // ------------------------------------------------------------------- steps in the other run

  /** What the client does not see does not change its history. */
  lemma Unseen(st: State, step: Step)
    requires Sane(st) && Enabled(st, step)
    requires step.Lose? || step.Duplicate? || step.Reorder? || step.Deliver?
    ensures Do(st, step).ctx == st.ctx && Do(st, step).nodes.Keys == st.nodes.Keys
  {
    hide DeliverTo, NetworkStep;
  }

  lemma IgnoredReaction(c: Ctx, s: NodeId, m: Message)
    requires c.client.Valid() && c.phase.Some? && c.phase.value != INIT_OP && !MatchesOp(m, c.phase.value)
    ensures React(c, s, m) == (c, [])
  {
    assert c.(client := c.client, recv := c.recv, heard := c.heard) == c;
  }

  lemma StepKinds(step: Step)
    ensures IsCall(step) || step.Repeat? || step.Receive? || step.ReceiveForeign? || step.TimeOut?
            || step.Lose? || step.Duplicate? || step.Reorder? || step.Deliver?
  {
  }

  /** A call, a deadline or a packet of an unknown node, in the other run. */
  lemma SameStep(ids: set<NodeId>, fifo: bool, a: State, b: State, step: Step) returns (d: State)
    requires Sane(a) && Occurs(ids, fifo, b) && b.ctx == a.ctx && b.nodes.Keys == a.nodes.Keys && Enabled(a, step)
    requires step.TimeOut? || step.ReceiveForeign?
    ensures Occurs(ids, fifo, d) && d.ctx == Do(a, step).ctx && d.nodes == b.nodes
  {
    OccursSane(ids, fifo, b);
    OtherAlike(a, b, step);
    hide Occurs, Do, Enabled, Sane;
    OccursOn(ids, fifo, b, step);
    d := Do(b, step);
  }

  lemma OtherAlike(a: State, b: State, step: Step)
    requires Sane(a) && Sane(b) && b.ctx == a.ctx && Enabled(a, step) && (step.TimeOut? || step.ReceiveForeign?)
    ensures Enabled(b, step) && Do(b, step).ctx == Do(a, step).ctx && Do(b, step).nodes == b.nodes
  {
    if step.ReceiveForeign? {
      ForeignReaction(a.ctx, step.from, step.m);
      NothingSent(b.nodes, b.ctx.epoch, b.ctx.begun);
    }
    hide React, Leave, Multicast;
  }

  lemma SameCall(ids: set<NodeId>, fifo: bool, a: State, b: State, call: Step) returns (d: State)
    requires Sane(a) && Occurs(ids, fifo, b) && b.ctx == a.ctx && b.nodes.Keys == a.nodes.Keys && Enabled(a, call)
    requires IsCall(call)
    ensures Sane(b) && Enabled(b, call) && Occurs(ids, fifo, d) && d == Do(b, call) && d.ctx == Do(a, call).ctx
    ensures d.nodes == CalledNodes(b, call) && d.nodes.Keys == Do(a, call).nodes.Keys
  {
    OccursSane(ids, fifo, b);
    EnabledAlike(a, b, call);
    CallEffect(a, call);
    CallEffect(b, call);
    hide Occurs, Do, Enabled, Sane, IsCall, CalledCtx;
    OccursOn(ids, fifo, b, call);
    d := Do(b, call);
  }

  lemma EnabledAlike(a: State, b: State, call: Step)
    requires Enabled(a, call) && b.ctx == a.ctx && IsCall(call)
    ensures Enabled(b, call)
  {
  }

  /** Some servers handle the first message on their links, and all others on the way are lost. */
  lemma Settle(ids: set<NodeId>, fifo: bool, m: State, some: set<NodeId>) returns (d: State)
    requires Occurs(ids, fifo, m) && some <= m.nodes.Keys && forall r | r in some :: m.nodes[r].down != []
    ensures Occurs(ids, fifo, d) && d.ctx == m.ctx && d.nodes.Keys == m.nodes.Keys && Sane(m)
    ensures forall r | r in m.nodes ::
              m.nodes[r].server.Valid()
              && d.nodes[r] == Bare(if r in some then DeliverTo(m.ctx, m.nodes[r]) else m.nodes[r], false)
  {
    OccursSane(ids, fifo, m);
    LeadsSelf(m);
    assert forall r | r in m.nodes :: m.nodes[r].server.Valid();
    hide Occurs, Sane, Leads, DeliverTo, Bare;
    DeliverSome(m, m, some);
    var e := m.(nodes := Handled(m.ctx, m.nodes, some));
    OccursLeads(ids, fifo, m, e);
    LoseAll(e, false);
    d := e.(nodes := BareNodes(e.nodes, e.nodes.Keys, false));
    OccursLeads(ids, fifo, e, d);
  }

  lemma MulticastOne(nodes: map<NodeId, Node>, m: Message, epoch: nat, phase: nat, s: NodeId)
    requires s in nodes
    ensures Multicast(nodes, [m], epoch, phase)[s] == nodes[s].(down := nodes[s].down + [Tagged(m, epoch, phase)])
  {
    assert Tag([m], epoch, phase) == [Tagged(m, epoch, phase)];
  }

  /** All are asked. */
  lemma AskAll(ids: set<NodeId>, fifo: bool, b: State) returns (m: State, t: Tagged)
    requires Occurs(ids, fifo, b) && Running(b.ctx) && b.ctx.phase.Some?
    ensures Occurs(ids, fifo, m) && m.ctx == b.ctx.(asked := true) && m.nodes.Keys == b.nodes.Keys
    ensures t == Tagged(Asking(b.ctx), b.ctx.epoch, b.ctx.begun)
    ensures forall r | r in b.nodes :: m.nodes[r] == b.nodes[r].(down := b.nodes[r].down + [t])
  {
    OccursSane(ids, fifo, b);
    DoRepeat(b);
    m, t := Do(b, Repeat), Tagged(Asking(b.ctx), b.ctx.epoch, b.ctx.begun);
    hide Occurs, Do, Enabled, Sane, Multicast, Asking, Running;
    OccursOn(ids, fifo, b, Repeat);
    forall r | r in b.nodes
      ensures m.nodes[r] == b.nodes[r].(down := b.nodes[r].down + [t])
    {
      MulticastOne(b.nodes, Asking(b.ctx), b.ctx.epoch, b.ctx.begun, r);
    }
  }

  /** A server that holds nothing gives the plain answer, and still holds nothing. */
  lemma PlainServed(c: Ctx, n: Node, t: Tagged)
    requires n.server.Valid() && n.server.updateMap == map[] && n.down == [t]
    requires c.phase.Some? && IsPlain(c.phase.value) && t.msg == Asking(c)
    ensures var r := DeliverTo(c, n);
            && r.server.updateMap == map[] && r.down == []
            && r.up == n.up + [Tagged(PlainAnswer(c.phase.value), t.epoch, t.phase)]
  {
  }

  lemma AskedSpared(c: Ctx, r: NodeId, n: Node, s: NodeId, k: nat, t: Tagged)
    requires Spared(c, r, n, s, k) && n.server.Valid() && !c.asked && Running(c) && (r != s || c.begun <= k)
    requires c.phase.Some? && IsPlain(c.phase.value) && t == Tagged(Asking(c), c.epoch, c.begun)
    requires |c.phases| == c.begun + 1 && c.phases[c.begun] == Phase(c.phase.value, c.epoch) && c.wrote < c.begun
    requires Heard(c, r) <= c.begun
    ensures Spared(c.(asked := true), r, Bare(DeliverTo(c.(asked := true), n.(down := [t])), false), s, k)
  {
    var d := c.(asked := true);
    PlainServed(d, n.(down := [t]), t);
    hide DeliverTo, Asking, PlainAnswer;
    assert AnsweredPhases(d, r, s, k) == c.begun + 1 && AnsweredPhases(c, r, s, k) == c.begun;
  }

  lemma LostSpared(c: Ctx, r: NodeId, n: Node, s: NodeId, k: nat, t: Tagged)
    requires Spared(c, r, n, s, k) && (c.asked || (r == s && k < c.begun))
    ensures Spared(c.(asked := true), r, Bare(n.(down := [t]), false), s, k)
  {
  }

  lemma RepeatSpares(ids: set<NodeId>, fifo: bool, b: State, s: NodeId, k: nat) returns (d: State)
    requires Occurs(ids, fifo, b) && AllSpared(b, s, k) && Running(b.ctx) && b.ctx.phase.Some?
    requires IsPlain(b.ctx.phase.value)
    requires |b.ctx.phases| == b.ctx.begun + 1 && b.ctx.phases[b.ctx.begun] == Phase(b.ctx.phase.value, b.ctx.epoch)
    requires b.ctx.wrote < b.ctx.begun && forall r | r in b.nodes :: Heard(b.ctx, r) <= b.ctx.begun
    ensures Occurs(ids, fifo, d) && d.ctx == b.ctx.(asked := true) && d.nodes.Keys == b.nodes.Keys && AllSpared(d, s, k)
  {
    var c := b.ctx;
    var m, t := AskAll(ids, fifo, b);
    var some := set r | r in b.nodes && !c.asked && (r != s || c.begun <= k);
    hide *;
    AskedOnly(b, m, t, s, k);
    d := Settle(ids, fifo, m, some);
    forall r | r in b.nodes
      ensures Spared(d.ctx, r, d.nodes[r], s, k)
    {
      SparedAt(b, r, s, k);
      RequestSpared(c, r, b.nodes[r], d.nodes[r], s, k, t, r in some);
    }
    MakesAllSpared(d, s, k);
  }

  lemma AskedOnly(b: State, m: State, t: Tagged, s: NodeId, k: nat)
    requires AllSpared(b, s, k) && m.nodes.Keys == b.nodes.Keys
    requires forall r | r in b.nodes :: m.nodes[r] == b.nodes[r].(down := b.nodes[r].down + [t])
    ensures forall r | r in b.nodes :: m.nodes[r] == b.nodes[r].(down := [t])
  {
    hide *;
    forall r | r in b.nodes
      ensures m.nodes[r] == b.nodes[r].(down := [t])
    {
      SparedAt(b, r, s, k);
      SparedLinks(b.ctx, r, b.nodes[r], s, k);
    }
  }

  lemma RequestSpared(c: Ctx, r: NodeId, n: Node, m: Node, s: NodeId, k: nat, t: Tagged, handled: bool)
    requires Spared(c, r, n, s, k) && n.server.Valid() && Running(c) && c.phase.Some? && IsPlain(c.phase.value)
    requires t == Tagged(Asking(c), c.epoch, c.begun) && c.wrote < c.begun && Heard(c, r) <= c.begun
    requires |c.phases| == c.begun + 1 && c.phases[c.begun] == Phase(c.phase.value, c.epoch)
    requires handled <==> !c.asked && (r != s || c.begun <= k)
    requires m == Bare(if handled then DeliverTo(c.(asked := true), n.(down := [t])) else n.(down := [t]), false)
    ensures Spared(c.(asked := true), r, m, s, k)
  {
    hide *;
    if handled {
      AskedSpared(c, r, n, s, k, t);
    } else {
      LostSpared(c, r, n, s, k, t);
    }
  }

  lemma SparedLinks(c: Ctx, r: NodeId, n: Node, s: NodeId, k: nat)
    requires Spared(c, r, n, s, k)
    ensures n.down == [] && n.up == Answers(c.phases, Heard(c, r), AnsweredPhases(c, r, s, k))
  {
  }

  lemma WriteSpared(c: Ctx, d: Ctx, r: NodeId, n: Node, s: NodeId, k: nat, t: Tagged)
    requires Spared(c, r, n, s, k) && n.server.Valid() && t.msg.WriteBlock? && c.wrote <= c.begun
    requires d == c.(client := d.client, returned := Nothing, wrote := c.begun)
    ensures r == s && k <= c.begun ==> Spared(d, r, Bare(DeliverTo(d, n.(down := [t])), false), s, k)
    ensures r != s || c.begun < k ==> Spared(d, r, Bare(n.(down := [t]), false), s, k)
  {
    assert t.msg.updateId in ServerStep(n.server, t.msg).server.updateMap;
  }

  /** Only the updates of `s` arrive, and only those accepted after phase `k` had begun. */
  lemma WriteSpares(ids: set<NodeId>, fifo: bool, a: State, b: State, s: NodeId, k: nat, u: Update) returns (d: State)
    requires Sane(a) && SpareRun(ids, fifo, a, b, s, k) && Enabled(a, CallWrite(u)) && a.ctx.wrote <= a.ctx.begun
    ensures SpareRun(ids, fifo, Do(a, CallWrite(u)), d, s, k)
  {
    var c, block := b.ctx, WriteBlock(b.ctx.fd, b.ctx.client.updateId, u);
    var m := SameCall(ids, fifo, a, b, CallWrite(u));
    var t := Tagged(block, c.epoch, c.begun);
    var some := set r | r in b.nodes && r == s && k <= c.begun;
    CallEffect(b, CallWrite(u));
    WriteShape(c, u) by { WriteFits(b, u); }
    assert m.ctx == CallWriteCtx(c, u) && m.nodes == Multicast(b.nodes, [block], c.epoch, c.begun)
      && AllSpared(b, s, k);
    hide *;
    SentSpares(b, m, block, s, k);
    d := Settle(ids, fifo, m, some);
    forall r | r in b.nodes
      ensures Spared(d.ctx, r, d.nodes[r], s, k)
    {
      SparedAt(b, r, s, k);
      WriteSpared(c, m.ctx, r, b.nodes[r], s, k, t);
    }
    MakesAllSpared(d, s, k);
    MakesSpareRun(ids, fifo, Do(a, CallWrite(u)), d, s, k);
  }

  lemma SentSpares(b: State, m: State, sent: Message, s: NodeId, k: nat)
    requires AllSpared(b, s, k) && m.nodes == Multicast(b.nodes, [sent], b.ctx.epoch, b.ctx.begun)
    ensures forall r | r in b.nodes :: m.nodes[r] == b.nodes[r].(down := [Tagged(sent, b.ctx.epoch, b.ctx.begun)])
  {
    forall r | r in b.nodes
      ensures m.nodes[r] == b.nodes[r].(down := [Tagged(sent, b.ctx.epoch, b.ctx.begun)])
    {
      SparedAt(b, r, s, k);
      SparedLinks(b.ctx, r, b.nodes[r], s, k);
      MulticastOne(b.nodes, sent, b.ctx.epoch, b.ctx.begun, r);
    }
  }

  lemma MakesSpareRun(ids: set<NodeId>, fifo: bool, a: State, b: State, s: NodeId, k: nat)
    requires Occurs(ids, fifo, b) && b.ctx == a.ctx && b.nodes.Keys == a.nodes.Keys && AllSpared(b, s, k)
    ensures SpareRun(ids, fifo, a, b, s, k)
  {
  }

  lemma WriteFits(b: State, u: Update)
    requires Enabled(b, CallWrite(u))
    ensures b.ctx.client.updateId < MAX_UINT32
  {
  }

  /** The answers read lead to no block being sent again. */
  lemma PlainReaction(c: Ctx, s: NodeId, m: Message)
    requires c.client.Valid() && c.phase.Some? && IsPlain(c.phase.value) && s in c.client.serverIds
    requires m == PlainAnswer(c.phase.value)
    ensures var d := AfterPacket(c, s, m);
            && d == c.(recv := c.recv + {s}, heard := c.heard[s := FirstFrom(c.phases, Heard(c, s), c.phase.value)])
            && React(c, s, m) == (if |d.recv| == c.client.numServers then Leave(d, NormalReturn, true) else d, [])
  {
    PlainIsRead(c, s, m);
    var a, d := OnPacket(c.client, c.phase.value, c.recv, c.fd, s, m), AfterPacket(c, s, m);
    hide OnPacket, Leave, AfterPacket, React, FirstFrom, PlainAnswer;
    ReactReceive(c, s, m, a, d);
  }

  lemma PlainIsRead(c: Ctx, s: NodeId, m: Message)
    requires c.client.Valid() && c.phase.Some? && IsPlain(c.phase.value) && s in c.client.serverIds
    requires m == PlainAnswer(c.phase.value)
    ensures OnPacket(c.client, c.phase.value, c.recv, c.fd, s, m) == BreakIfFull(c.client, c.recv + {s})
    ensures var d := AfterPacket(c, s, m);
            d == c.(recv := c.recv + {s}, heard := c.heard[s := FirstFrom(c.phases, Heard(c, s), c.phase.value)])
  {
    PlainPacketReaction(c.client, c.phase.value, c.recv, c.fd, s, m);
    PlainIsHeard(c, s, m);
    hide OnPacket, FirstFrom, HeardAfter, PlainAnswer, IsPlain;
  }

  lemma PlainIsHeard(c: Ctx, s: NodeId, m: Message)
    requires c.phase.Some? && IsPlain(c.phase.value) && s in c.client.serverIds && m == PlainAnswer(c.phase.value)
    ensures m.fileDesc == 0 && c.phase.value != INIT_OP
    ensures HeardAfter(c, s, m, c.phase.value) == c.heard[s := FirstFrom(c.phases, Heard(c, s), c.phase.value)]
  {
    hide FirstFrom;
  }

  lemma DoRead(st: State, s: NodeId)
    requires Sane(st) && Running(st.ctx) && st.ctx.phase.Some? && st.ctx.asked && IsPlain(st.ctx.phase.value)
    requires s in st.nodes && s in st.ctx.client.serverIds
    requires st.nodes[s].up != [] && st.nodes[s].up[0].msg == PlainAnswer(st.ctx.phase.value)
    ensures Enabled(st, Receive(s)) && st.ctx.client.Valid()
    ensures var n := st.nodes[s];
            Do(st, Receive(s)) == State(React(st.ctx, s, n.up[0].msg).0, st.nodes[s := n.(up := n.up[1..])])
  {
    var n := st.nodes[s];
    PlainReaction(st.ctx, s, n.up[0].msg);
    NothingSent(st.nodes[s := n.(up := n.up[1..])], st.ctx.epoch, st.ctx.begun);
    hide React, Multicast;
  }

  /** Everything before an answer is lost, and the answer is repeated. */
  lemma RepeatAnswer(ids: set<NodeId>, fifo: bool, b: State, s: NodeId, i: nat) returns (e: State)
    requires Occurs(ids, fifo, b) && s in b.nodes && i < |b.nodes[s].up|
    ensures Occurs(ids, fifo, e) && Sane(e) && e.ctx == b.ctx
    ensures e.nodes == b.nodes[s := b.nodes[s].(up := [b.nodes[s].up[i]] + b.nodes[s].up[i..])]
  {
    var n := b.nodes[s];
    var m := b.(nodes := b.nodes[s := n.(up := n.up[i..])]);
    hide *;
    OccursSane(ids, fifo, b);
    LeadsSelf(b);
    LosePrefix(b, b, s, i);
    OccursLeads(ids, fifo, b, m);
    DuplicateFirst(m, s);
    OccursOn(ids, fifo, m, Duplicate(s, true, 0));
    e := Do(m, Duplicate(s, true, 0));
  }

  /** An answer is read and another one like it is left. */
  lemma ReadAndKeep(ids: set<NodeId>, fifo: bool, b: State, s: NodeId, i: nat) returns (d: State)
    requires Occurs(ids, fifo, b) && Running(b.ctx) && b.ctx.phase.Some? && b.ctx.asked && IsPlain(b.ctx.phase.value)
    requires s in b.nodes && s in b.ctx.client.serverIds && b.ctx.client.Valid()
    requires i < |b.nodes[s].up| && b.nodes[s].up[i].msg == PlainAnswer(b.ctx.phase.value)
    ensures Occurs(ids, fifo, d) && d.ctx == React(b.ctx, s, PlainAnswer(b.ctx.phase.value)).0
    ensures d.nodes == b.nodes[s := b.nodes[s].(up := b.nodes[s].up[i..])]
  {
    hide *;
    var n := b.nodes[s];
    var e := RepeatAnswer(ids, fifo, b, s, i);
    DoRead(e, s);
    OccursOn(ids, fifo, e, Receive(s));
    d := Do(e, Receive(s));
    assert e.nodes[s].up[1..] == n.up[i..];
  }

  lemma DuplicateFirst(a: State, s: NodeId)
    requires Sane(a) && s in a.nodes && a.nodes[s].up != []
    ensures Enabled(a, Duplicate(s, true, 0))
    ensures Do(a, Duplicate(s, true, 0))
         == a.(nodes := a.nodes[s := a.nodes[s].(up := [a.nodes[s].up[0]] + a.nodes[s].up)])
  {
    var q := a.nodes[s].up;
    assert Doubled(q, 0) == [q[0]] + q;
  }

  /** The first answer of the phase's op that is owed is read, and kept. */
  lemma ReadSpare(ids: set<NodeId>, fifo: bool, b: State, r: NodeId, s: NodeId, k: nat) returns (d: State)
    requires Occurs(ids, fifo, b) && Running(b.ctx) && b.ctx.phase.Some? && b.ctx.asked && IsPlain(b.ctx.phase.value)
    requires AllSpared(b, s, k) && r in b.nodes && r in b.ctx.client.serverIds && b.ctx.client.Valid()
    requires |b.ctx.phases| == b.ctx.begun + 1
    requires var p := FirstFrom(b.ctx.phases, Heard(b.ctx, r), b.ctx.phase.value);
             p <= b.ctx.begun && (r == s ==> p <= k)
    ensures Occurs(ids, fifo, d) && d.ctx == React(b.ctx, r, PlainAnswer(b.ctx.phase.value)).0
    ensures d.nodes.Keys == b.nodes.Keys && AllSpared(d, s, k)
  {
    assert b.ctx.phase.value != INIT_OP;
    hide *;
    var c := b.ctx;
    var answer := PlainAnswer(c.phase.value);
    var p := FirstFrom(c.phases, Heard(c, r), c.phase.value);
    SparedAt(b, r, s, k);
    ReadsOwed(c, r, b.nodes[r], s, k);
    PlainReaction(c, r, answer);
    d := ReadAndKeep(ids, fifo, b, r, |Answers(c.phases, Heard(c, r), p)|);
    var e := AfterPacket(c, r, answer);
    PlainGrown(c, r);
    forall q | q in b.nodes
      ensures Spared(d.ctx, q, d.nodes[q], s, k)
    {
      SparedAt(b, q, s, k);
      ReadSpared(c, e, r, q, b.nodes[q], d.nodes[q], s, k);
      GrownSpared(e, d.ctx, q, d.nodes[q], d.nodes[q], s, k);
    }
    MakesAllSpared(d, s, k);
  }

  lemma SparedAt(b: State, r: NodeId, s: NodeId, k: nat)
    requires AllSpared(b, s, k) && r in b.nodes
    ensures Spared(b.ctx, r, b.nodes[r], s, k)
  {
    hide Spared;
  }

  lemma MakesAllSpared(b: State, s: NodeId, k: nat)
    requires forall r | r in b.nodes :: Spared(b.ctx, r, b.nodes[r], s, k)
    ensures AllSpared(b, s, k)
  {
    hide Spared;
  }

  /** The answer that is read is one of those owed. */
  lemma ReadsOwed(c: Ctx, r: NodeId, n: Node, s: NodeId, k: nat)
    requires Spared(c, r, n, s, k) && c.phase.Some? && c.asked && IsPlain(c.phase.value) && |c.phases| == c.begun + 1
    requires var p := FirstFrom(c.phases, Heard(c, r), c.phase.value); p <= c.begun && (r == s ==> p <= k)
    ensures var p, j := FirstFrom(c.phases, Heard(c, r), c.phase.value), AnsweredPhases(c, r, s, k);
            var i := |Answers(c.phases, Heard(c, r), p)|;
            i < |n.up| && n.up[i..] == Answers(c.phases, p, j) && n.up[i].msg == PlainAnswer(c.phase.value)
  {
    var h, p := Heard(c, r), FirstFrom(c.phases, Heard(c, r), c.phase.value);
    var j := AnsweredPhases(c, r, s, k);
    hide IsPlain, Heard, FirstFrom, PlainAnswer;
    AnswerAt(c.phases, h, p, j);
    hide Answers;
    var i := |Answers(c.phases, h, p)|;
    assert n.up[i..][0] == n.up[i];
  }

  lemma ReadSpared(c: Ctx, e: Ctx, r: NodeId, q: NodeId, n: Node, m: Node, s: NodeId, k: nat)
    requires Spared(c, q, n, s, k) && m == n.(up := m.up) && c.phase.Some?
    requires var p := FirstFrom(c.phases, Heard(c, r), c.phase.value);
             && e == c.(recv := e.recv, heard := c.heard[r := p])
             && m.up == if q == r then Answers(c.phases, p, AnsweredPhases(c, r, s, k)) else n.up
    ensures Spared(e, q, m, s, k)
  {
    hide FirstFrom, Answers;
  }

  lemma PlainGrown(c: Ctx, r: NodeId)
    requires c.client.Valid() && Running(c) && c.phase.Some? && c.asked && IsPlain(c.phase.value)
    requires r in c.client.serverIds
    requires |c.phases| == c.begun + 1
    ensures Grown(AfterPacket(c, r, PlainAnswer(c.phase.value)), React(c, r, PlainAnswer(c.phase.value)).0)
  {
    PlainReaction(c, r, PlainAnswer(c.phase.value));
    var d := AfterPacket(c, r, PlainAnswer(c.phase.value));
    hide AfterPacket, React, Leave, Grown;
    LeaveGrown(d, NormalReturn, true);
    GrownFrame(d, d);
  }

  // -------------------------------------------------------------------- one step after another

  /** Facts about a context that the steps below use. */
  predicate Orderly(c: Ctx) {
    && |c.phases| == c.begun + 1 && c.wrote <= c.begun
    && (c.phase.Some? ==>
           c.phases[c.begun] == Phase(c.phase.value, c.epoch) && c.wrote < c.begun && c.phase.value != INIT_OP)
    && forall r | r in c.client.serverIds :: Heard(c, r) <= c.begun
  }

  lemma OrderlyCtx(c: Ctx)
    requires CtxInv(c) && Dated(c)
    ensures Orderly(c)
  {
    hide OnlyDecision, HeardSince, ClientInv, CallInv, Repeats;
  }

  lemma WaitingIsPlain(c: Ctx)
    requires Waiting(c)
    ensures c.phase.Some? ==> IsPlain(c.phase.value) && c.phase != Some(VOTE_OP) && Running(c)
  {
  }

  /** The answer that a waiting phase reads and that leaves it waiting. */
  lemma PlainHead(c: Ctx, s: NodeId, n: Node)
    requires CtxInv(c) && NodeInv(c, s, n) && n.up != [] && c.phase.Some? && Waiting(c) && s in c.client.serverIds
    requires c.phase.value != INIT_OP
    requires MatchesOp(n.up[0].msg, c.phase.value) && Waiting(React(c, s, n.up[0].msg).0)
    ensures n.up[0].msg == PlainAnswer(c.phase.value)
  {
    hide *;
    CtxPieces(c);
    ClosingPart(c, s, n);
    HeadIsOk(c, s, n);
    WaitingIsPlain(c);
    if n.up[0].msg == CloseAck(1) {
      ClosesOnly(c, n.up[0].msg);
      if c.second {
        SecondPassNode(c, s, n);
        HeadIsOn(n.up);
      } else {
        AgainStartsVote(c, s);
      }
    }
    PlainKinds(n.up[0].msg, c.phase.value);
  }

  lemma HeadIsOn(q: Queue)
    requires q != []
    ensures q[0] in q
  {
  }

  lemma HeadIsOk(c: Ctx, s: NodeId, n: Node)
    requires Core(c, s, n) && n.up != []
    ensures var m := n.up[0].msg; IsAck(m) && (m.fileDesc == 0 || (m.fileDesc == 1 && m.CloseAck?))
  {
    CoreParts(c, s, n);
    hide Ordered, Numbered, DownOk, ServerOk, Idling;
    assert UpMsgOk(c, n.server, n.up[0]);
  }

  lemma ClosesOnly(c: Ctx, m: Message)
    requires c.phase.Some? && MatchesOp(m, c.phase.value) && m.CloseAck?
    ensures c.phase == Some(CLOSE_OP)
  {
  }

  lemma PlainKinds(m: Message, op: Op)
    requires IsAck(m) && MatchesOp(m, op) && IsPlain(op) && (m.fileDesc == 0 || m == CloseAck(1))
    ensures m == PlainAnswer(op) || m == CloseAck(1)
  {
  }

  lemma AgainStartsVote(c: Ctx, s: NodeId)
    requires c.client.Valid() && c.phase == Some(CLOSE_OP) && !c.second && s in c.client.serverIds
    ensures !Waiting(React(c, s, CloseAck(1)).0)
  {
    PlainPacketReaction(c.client, CLOSE_OP, c.recv, c.fd, s, CloseAck(1));
    var d := AfterPacket(c, s, CloseAck(1));
    hide OnPacket, Leave, AfterPacket, StartPhase;
    ReactReceive(c, s, CloseAck(1), OnPacket(c.client, CLOSE_OP, c.recv, c.fd, s, CloseAck(1)), d);
    hide React;
    LeavesForVote(d);
  }

  lemma LeavesForVote(d: Ctx)
    requires d.phase == Some(CLOSE_OP) && !d.second && d.client.Valid()
    ensures !Waiting(Leave(d, Again, true))
  {
    hide StartPhase;
  }

  lemma StepSpares(ids: set<NodeId>, fifo: bool, a: State, b: State, step: Step, s: NodeId, k: nat) returns (d: State)
    requires Sane(a) && Members(a) && CtxInv(a.ctx) && NodesInv(a.ctx, a.nodes) && Dated(a.ctx) && Enabled(a, step)
    requires SpareRun(ids, fifo, a, b, s, k) && Waiting(a.ctx) && Waiting(Do(a, step).ctx)
    requires s in a.nodes ==> Heard(Do(a, step).ctx, s) <= k
    ensures SpareRun(ids, fifo, Do(a, step), d, s, k)
  {
    hide *;
    var c := a.ctx;
    OrderlyCtx(c);
    CtxPieces(c);
    AsMember(a);
    SpareRunMeans(ids, fifo, a, b, s, k);
    StepKinds(step);
    WaitingIsPlain(c);
    if step.Receive? {
      d := ReceiveSpares(ids, fifo, a, b, step, s, k);
    } else if step.Repeat? {
      RepeatRuns(a, step);
      DoRepeat(a);
      NodesAsked(a);
      OrderlyMeans(c);
      d := RepeatSpares(ids, fifo, b, s, k);
      MakesSpareRun(ids, fifo, Do(a, step), d, s, k);
    } else if step.CallWrite? {
      OrderlyMeans(c);
      var u := step.u;
      IsWriteOf(step);
      d := WriteSpares(ids, fifo, a, b, s, k, u);
    } else if IsCall(step) {
      CallsAre(a, step);
      OrderlyMeans(c);
      CalledGrown(c, step);
      CallEffect(a, step);
      d := SameCall(ids, fifo, a, b, step);
      CalledLinks(b, step);
      GrownAll(b, d, s, k);
      MakesSpareRun(ids, fifo, Do(a, step), d, s, k);
    } else if step.TimeOut? || step.ReceiveForeign? {
      LeftGrown(a, step);
      d := SameStep(ids, fifo, a, b, step);
      LinksAlike(b, d);
      GrownAll(b, d, s, k);
      OtherKeys(a, step);
      MakesSpareRun(ids, fifo, Do(a, step), d, s, k);
    } else {
      Unseen(a, step);
      d := b;
      MakesSpareRun(ids, fifo, Do(a, step), d, s, k);
    }
  }

  lemma IsWriteOf(step: Step)
    requires step.CallWrite?
    ensures step == CallWrite(step.u)
  {
  }

  lemma OrderlyMeans(c: Ctx)
    requires Orderly(c)
    ensures |c.phases| == c.begun + 1 && c.wrote <= c.begun
    ensures c.phase.Some? ==>
              c.phases[c.begun] == Phase(c.phase.value, c.epoch) && c.wrote < c.begun && c.phase.value != INIT_OP
    ensures forall r | r in c.client.serverIds :: Heard(c, r) <= c.begun
  {
  }

  lemma SpareRunMeans(ids: set<NodeId>, fifo: bool, a: State, b: State, s: NodeId, k: nat)
    requires SpareRun(ids, fifo, a, b, s, k)
    ensures Occurs(ids, fifo, b) && Sane(b) && b.ctx == a.ctx && b.nodes.Keys == a.nodes.Keys && AllSpared(b, s, k)
  {
    OccursSane(ids, fifo, b);
  }

  lemma RepeatRuns(st: State, step: Step)
    requires Enabled(st, step) && step.Repeat?
    ensures Running(st.ctx) && st.ctx.phase.Some? && st.ctx.phase.value != INIT_OP && step == Repeat
  {
  }

  lemma NodesAsked(a: State)
    requires Sane(a) && Enabled(a, Repeat)
    ensures Do(a, Repeat).nodes.Keys == a.nodes.Keys
  {
    hide Do, Enabled, Sane;
  }

  lemma CallsAre(st: State, step: Step)
    requires Enabled(st, step) && IsCall(step)
    ensures st.ctx.phase.None?
  {
  }

  ghost predicate LinksKept(b: State, d: State) {
    d.nodes.Keys == b.nodes.Keys &&
    forall r | r in b.nodes ::
      d.nodes[r].server == b.nodes[r].server && d.nodes[r].up == b.nodes[r].up && d.nodes[r].down == b.nodes[r].down
  }

  lemma CalledLinks(b: State, call: Step)
    requires Sane(b) && Enabled(b, call) && IsCall(call) && !call.CallWrite?
    ensures LinksKept(b, Do(b, call))
  {
    CallEffect(b, call);
    hide Do, Enabled, Sane, CalledCtx;
  }

  lemma LinksAlike(b: State, d: State)
    requires d.nodes == b.nodes
    ensures LinksKept(b, d)
  {
  }

  lemma GrownAll(b: State, d: State, s: NodeId, k: nat)
    requires AllSpared(b, s, k) && LinksKept(b, d) && Grown(b.ctx, d.ctx)
    ensures AllSpared(d, s, k)
  {
    hide Spared, Grown;
    forall r | r in d.nodes
      ensures Spared(d.ctx, r, d.nodes[r], s, k)
    {
      GrownSpared(b.ctx, d.ctx, r, b.nodes[r], d.nodes[r], s, k);
    }
  }

  lemma OtherKeys(a: State, step: Step)
    requires Sane(a) && Enabled(a, step)
    ensures Do(a, step).nodes.Keys == a.nodes.Keys
  {
    hide Do, Enabled, Sane;
  }

  lemma LeftGrown(a: State, step: Step)
    requires Sane(a) && Enabled(a, step) && Members(a) && (step.TimeOut? || step.ReceiveForeign?) && Orderly(a.ctx)
    requires a.ctx.phase != Some(VOTE_OP)
    ensures Grown(a.ctx, Do(a, step).ctx)
  {
    var c := a.ctx;
    IsRunning(a, step);
    hide *;
    OrderlyMeans(c);
    AskedMeans(a);
    DoOtherwise(a, step);
    GrownFrame(c, c);
    if step.TimeOut? {
      LeaveGrown(c, Finish(c.client, c.phase.value, c.recv), false);
    } else {
      ForeignReaction(c, step.from, step.m);
      LeaveGrown(c, NormalReturn, false);
    }
  }

  lemma AskedMeans(a: State)
    requires Sane(a)
    ensures a.ctx.client.Valid()
  {
  }

  lemma ReceiveSpares(ids: set<NodeId>, fifo: bool, a: State, b: State, step: Step, s: NodeId, k: nat)
        returns (d: State)
    requires Sane(a) && Members(a) && CtxInv(a.ctx) && NodesInv(a.ctx, a.nodes) && Orderly(a.ctx) && Enabled(a, step)
    requires SpareRun(ids, fifo, a, b, s, k) && Waiting(a.ctx) && Waiting(Do(a, step).ctx) && step.Receive?
    requires s in a.nodes ==> Heard(Do(a, step).ctx, s) <= k
    ensures SpareRun(ids, fifo, Do(a, step), d, s, k)
  {
    IsRunning(a, step);
    hide *;
    var c, r := a.ctx, step.s;
    CtxPieces(c);
    AsMember(a);
    SpareRunMeans(ids, fifo, a, b, s, k);
    DoReceive(a, step);
    OtherKeys(a, step);
    if MatchesOp(a.nodes[r].up[0].msg, c.phase.value) {
      WaitingIsPlain(c);
      PlainAnswerRead(c, a.nodes, r);
      d := ReadSpare(ids, fifo, b, r, s, k);
    } else {
      IgnoredReaction(c, r, a.nodes[r].up[0].msg);
      d := b;
    }
    MakesSpareRun(ids, fifo, Do(a, step), d, s, k);
  }

  lemma PlainAnswerRead(c: Ctx, nodes: map<NodeId, Node>, r: NodeId)
    requires CtxInv(c) && NodesInv(c, nodes) && Orderly(c) && Waiting(c) && c.phase.Some? && c.asked && c.client.Valid()
    requires c.phase.value != INIT_OP && r in nodes && r in c.client.serverIds && nodes[r].up != []
    requires MatchesOp(nodes[r].up[0].msg, c.phase.value) && Waiting(React(c, r, nodes[r].up[0].msg).0)
    ensures nodes[r].up[0].msg == PlainAnswer(c.phase.value) && |c.phases| == c.begun + 1
    ensures FirstFrom(c.phases, Heard(c, r), c.phase.value) <= c.begun
    ensures Heard(React(c, r, nodes[r].up[0].msg).0, r) == FirstFrom(c.phases, Heard(c, r), c.phase.value)
  {
    hide *;
    CtxPieces(c);
    OrderlyMeans(c);
    WaitingIsPlain(c);
    NodeOf(c, nodes, r);
    PlainHead(c, r, nodes[r]);
    ReadEpoch(c, r);
    PlainHeard(c, r);
  }

  /** What is heard does not change when the phase is left. */
  lemma PlainHeard(c: Ctx, r: NodeId)
    requires c.client.Valid() && c.phase.Some? && c.phase.value != INIT_OP && c.asked && IsPlain(c.phase.value)
    requires r in c.client.serverIds && |c.phases| == c.begun + 1
    ensures Heard(React(c, r, PlainAnswer(c.phase.value)).0, r) == FirstFrom(c.phases, Heard(c, r), c.phase.value)
  {
    PlainGrown(c, r);
    PlainReaction(c, r, PlainAnswer(c.phase.value));
    hide AfterPacket, React, FirstFrom, Leave;
  }

  // -------------------------------------------------------------------- where it can start

  lemma BusyMeans(c: Ctx)
    requires !Waiting(c)
    ensures c.phase.Some? && c.phase != Some(OPEN_OP) && c.phase != Some(CLOSE_OP)
    ensures c.phase == Some(ABORT_OP) ==> Deciding(c)
  {
  }

  lemma SameIsBusy(c: Ctx, d: Ctx)
    requires d.phase == c.phase && d.epoch == c.epoch
    ensures Waiting(c) <==> Waiting(d)
  {
  }

  lemma VoteLeftBusy(c: Ctx, ret: Ret, checked: bool)
    requires c.client.Valid() && c.phase == Some(VOTE_OP) && !Deciding(c)
    ensures !Waiting(LeaveVote(c, ret, checked))
  {
    hide BeginDecision, CurrentTxn, Onward, WithinCall;
    match ret {
      case ErrorReturn => BeginsBusy(c, ABORT_OP);
      case Again =>
      case NormalReturn => BeginsBusy(c.(log := c.log + [CurrentTxn(c)], tainted := c.tainted || !checked), COMMIT_OP);
    }
  }

  lemma BeginsBusy(c: Ctx, op: Op)
    requires !Deciding(c) && (op == ABORT_OP || op == COMMIT_OP)
    ensures !Waiting(BeginDecision(c, op))
  {
    hide Clear, Onward, WithinCall;
  }

  lemma CommitEmpties(c: Ctx, ret: Ret)
    requires !LeaveCommit(c, ret).tainted
    ensures ret == NormalReturn && LeaveCommit(c, ret).client.updateId == 0
  {
    hide BeginDecision, StartPhase;
  }

  lemma AbortEmpties(c: Ctx, ret: Ret)
    requires !LeaveAbort(c, ret).tainted && Deciding(c)
    ensures ret == NormalReturn && LeaveAbort(c, ret).client.updateId == 0
  {
  }

  /** A phase that is not waited in and ends in waiting is a decision that all have answered. */
  lemma BusyLeave(c: Ctx, ret: Ret, checked: bool)
    requires c.client.Valid() && PhaseInv(c) && c.phase.Some? && c.phase.value != INIT_OP && !Waiting(c)
    requires Waiting(Leave(c, ret, checked)) && !Leave(c, ret, checked).tainted
    ensures (c.phase == Some(COMMIT_OP) || c.phase == Some(ABORT_OP)) && Deciding(c) && ret == NormalReturn
    ensures Leave(c, ret, checked).client.updateId == 0
  {
    VoteIsEven(c);
    RunningParity(c);
    BusyMeans(c);
    hide LeaveOpen, LeaveVote, LeaveCommit, LeaveAbort, LeaveClose, Waiting, PhaseInv;
    if c.phase == Some(VOTE_OP) {
      VoteLeftBusy(c, ret, checked);
    } else if c.phase == Some(COMMIT_OP) {
      CommitEmpties(c, ret);
    } else {
      AbortEmpties(c, ret);
    }
  }

  /** A decision has been answered by all when its phase is left: `c` before the step, `e` after
      an answer was counted, `f` after the phase was left. */
  ghost predicate Ends(c: Ctx, e: Ctx, f: Ctx) {
    && (c.phase == Some(COMMIT_OP) || c.phase == Some(ABORT_OP)) && Deciding(c) && c.asked
    && CtxInv(e) && e == c.(client := e.client, recv := e.recv, heard := e.heard) && |e.recv| == e.client.numServers
    && Grown(e, f) && f.client.updateId == 0
  }

  lemma LeavingEnds(c: Ctx, e: Ctx, ret: Ret, checked: bool)
    requires c.asked && CtxInv(e) && e == c.(client := e.client, recv := e.recv, heard := e.heard)
    requires ret == NormalReturn ==> |e.recv| == e.client.numServers
    requires e.phase.Some? && e.phase.value != INIT_OP && e.client.Valid() && !Waiting(e)
    requires Waiting(Leave(e, ret, checked)) && !Leave(e, ret, checked).tainted
    ensures Ends(c, e, Leave(e, ret, checked))
  {
    hide *;
    CtxPieces(e);
    PhaseCounted(e);
    CountedMeans(e);
    BusyLeave(e, ret, checked);
    NotVote(e);
    LeaveGrown(e, ret, checked);
    MakesEnds(c, e, Leave(e, ret, checked));
  }

  lemma CountedMeans(c: Ctx)
    requires Counted(c)
    ensures |c.phases| == c.begun + 1
  {
  }

  lemma NotVote(c: Ctx)
    requires c.phase == Some(COMMIT_OP) || c.phase == Some(ABORT_OP)
    ensures c.phase != Some(VOTE_OP)
  {
  }

  lemma MakesEnds(c: Ctx, e: Ctx, f: Ctx)
    requires (e.phase == Some(COMMIT_OP) || e.phase == Some(ABORT_OP)) && Deciding(e) && c.asked && CtxInv(e)
    requires e == c.(client := e.client, recv := e.recv, heard := e.heard) && |e.recv| == e.client.numServers
    requires Grown(e, f) && f.client.updateId == 0
    ensures Ends(c, e, f)
  {
    hide Grown, CtxInv;
  }

  lemma OtherEnds(a: State, step: Step)
    requires Sane(a) && Enabled(a, step) && Members(a) && CtxInv(a.ctx) && !Waiting(a.ctx)
    requires (step.TimeOut? || step.ReceiveForeign?) && Waiting(Do(a, step).ctx) && !Do(a, step).ctx.tainted
    ensures Ends(a.ctx, a.ctx, Do(a, step).ctx)
  {
    var c := a.ctx;
    IsRunning(a, step);
    assert c == c.(client := c.client, recv := c.recv, heard := c.heard);
    hide *;
    CtxPieces(c);
    DoOtherwise(a, step);
    FinishFits(c);
    SubsetCardinalityOf(c);
    AllCounted(c);
    if step.TimeOut? {
      LeavingEnds(c, c, Finish(c.client, c.phase.value, c.recv), false);
    } else {
      ForeignReaction(c, step.from, step.m);
      LeavingEnds(c, c, NormalReturn, false);
    }
  }

  lemma AllCounted(c: Ctx)
    requires ClientInv(c)
    ensures c.recv == c.client.serverIds ==> |c.recv| == c.client.numServers
  {
  }

  lemma ReceiveEnds(a: State, step: Step)
    requires Sane(a) && Enabled(a, step) && Members(a) && CtxInv(a.ctx) && NodesInv(a.ctx, a.nodes) && !Waiting(a.ctx)
    requires step.Receive? && Waiting(Do(a, step).ctx) && !Do(a, step).ctx.tainted
    ensures Running(a.ctx) && a.ctx.phase.Some? && step.s in a.nodes && step.s in a.ctx.client.serverIds
    ensures a.nodes[step.s].up != []
    ensures Ends(a.ctx, AfterPacket(a.ctx, step.s, a.nodes[step.s].up[0].msg), Do(a, step).ctx)
    ensures a.nodes[step.s].up[0].msg == PlainAnswer(a.ctx.phase.value)
  {
    var c, s := a.ctx, step.s;
    IsRunning(a, step);
    hide *;
    DoReceive(a, step);
    AsMember(a);
    AnswerEnds(c, a.nodes, s);
  }

  lemma AnswerEnds(c: Ctx, nodes: map<NodeId, Node>, s: NodeId)
    requires CtxInv(c) && NodesInv(c, nodes) && c.phase.Some? && c.phase.value != INIT_OP && c.asked && !Waiting(c)
    requires nodes.Keys == c.client.serverIds && s in nodes && nodes[s].up != [] && c.client.Valid()
    requires var f := React(c, s, nodes[s].up[0].msg).0; Waiting(f) && !f.tainted
    ensures Ends(c, AfterPacket(c, s, nodes[s].up[0].msg), React(c, s, nodes[s].up[0].msg).0)
    ensures nodes[s].up[0].msg == PlainAnswer(c.phase.value)
  {
    hide *;
    var m, d := nodes[s].up[0].msg, AfterPacket(c, s, nodes[s].up[0].msg);
    var a := OnPacket(c.client, c.phase.value, c.recv, c.fd, s, m);
    NodeOf(c, nodes, s);
    ClosingPart(c, s, nodes[s]);
    HeadIsOk(c, s, nodes[s]);
    ReceiveCounts(c, nodes, s);
    MemberPacket(c, s, nodes[s]);
    ReactReceive(c, s, m, a, d);
    SameIsBusy(c, d);
    if !MatchesOp(m, c.phase.value) {
      IgnoredReaction(c, s, m);
    }
    LeavingEnds(c, d, a.exit.value, s in c.client.serverIds);
    EndsPlainly(c, d, React(c, s, m).0, m);
  }

  lemma EndsPlainly(c: Ctx, e: Ctx, f: Ctx, m: Message)
    requires Ends(c, e, f) && c.phase.Some? && MatchesOp(m, c.phase.value) && IsAck(m)
    requires m.fileDesc == 0 || (m.fileDesc == 1 && m.CloseAck?)
    ensures m == PlainAnswer(c.phase.value)
  {
    hide CtxInv, Grown;
  }

  /** Then every server was last heard in this very phase. */
  lemma EndsHeard(c: Ctx, e: Ctx, f: Ctx)
    requires Ends(c, e, f) && Repeats(c.phases)
    ensures forall r | r in e.client.serverIds :: Heard(f, r) == c.begun
    ensures AskedPhases(f) == c.begun + 1 && f.wrote == c.wrote && c.phases <= f.phases && |c.phases| == c.begun + 1
    ensures c.phases[c.begun] == Phase(c.phase.value, c.epoch)
  {
    hide *;
    EndsParts(c, e, f);
    CtxPieces(e);
    NoSecond(e);
    SubsetCardinalityOf(e);
    FullIsHeard(e);
    forall r | r in e.client.serverIds
      ensures Heard(f, r) == c.begun
    {
      LastHeard(e, r);
      SameHeard(e, f, r);
    }
  }

  lemma EndsParts(c: Ctx, e: Ctx, f: Ctx)
    requires Ends(c, e, f)
    ensures c.phase.Some? && (e.phase == Some(COMMIT_OP) || e.phase == Some(ABORT_OP)) && Deciding(e) && CtxInv(e)
    ensures e == c.(client := e.client, recv := e.recv, heard := e.heard) && |e.recv| == e.client.numServers
    ensures f.heard == e.heard && f.wrote == e.wrote && e.phases <= f.phases && AskedPhases(f) == c.begun + 1
    ensures |c.phases| == c.begun + 1 && c.phases[c.begun] == Phase(c.phase.value, c.epoch)
  {
    hide ClientInv, CallInv, OnlyDecision, HeardSince;
  }

  lemma NoSecond(c: Ctx)
    requires CtxInv(c) && (c.phase == Some(COMMIT_OP) || c.phase == Some(ABORT_OP)) && Deciding(c)
    ensures !c.second && !Idle(c)
  {
    hide PhaseInv, ClientInv;
    assert c.client.Valid() by { CommittingLog(c); }
  }

  lemma LastHeard(c: Ctx, r: NodeId)
    requires PhaseInv(c) && Repeats(c.phases) && HeardSince(c, c.epoch) && Deciding(c) && r in c.client.serverIds
    requires c.phase == Some(COMMIT_OP) || c.phase == Some(ABORT_OP)
    ensures Heard(c, r) == c.begun
  {
    hide OnlyDecision;
  }

  lemma SameHeard(c: Ctx, d: Ctx, r: NodeId)
    requires d.heard == c.heard
    ensures Heard(d, r) == Heard(c, r)
  {
  }

  lemma LosesAll(ids: set<NodeId>, fifo: bool, a: State) returns (bare: State)
    requires Occurs(ids, fifo, a)
    ensures Occurs(ids, fifo, bare) && bare.ctx == a.ctx && bare.nodes.Keys == a.nodes.Keys
    ensures forall r | r in a.nodes :: bare.nodes[r] == a.nodes[r].(down := [], up := [])
  {
    OccursSane(ids, fifo, a);
    bare := a.(nodes := BareNodes(a.nodes, a.nodes.Keys, true));
    hide Occurs, Sane, Leads;
    LoseAll(a, true);
    OccursLeads(ids, fifo, a, bare);
  }

  /** Everything under way is lost, and all are asked again. */
  lemma AskBare(ids: set<NodeId>, fifo: bool, a: State) returns (m: State, t: Tagged)
    requires Occurs(ids, fifo, a) && Running(a.ctx) && a.ctx.phase.Some? && a.ctx.asked
    ensures Occurs(ids, fifo, m) && m.ctx == a.ctx && m.nodes.Keys == a.nodes.Keys
    ensures t == Tagged(Asking(a.ctx), a.ctx.epoch, a.ctx.begun)
    ensures forall r | r in a.nodes :: m.nodes[r] == a.nodes[r].(down := [t], up := [])
  {
    hide *;
    var bare := LosesAll(ids, fifo, a);
    AlreadyAsked(bare.ctx);
    m, t := AskAll(ids, fifo, bare);
    forall r | r in a.nodes
      ensures m.nodes[r] == a.nodes[r].(down := [t], up := [])
    {
      assert bare.nodes[r].down == [];
    }
  }

  /** All servers are clean, and answer the decision once more. */
  lemma AnswerAgain(ids: set<NodeId>, fifo: bool, a: State) returns (b: State)
    requires Occurs(ids, fifo, a) && Running(a.ctx) && a.ctx.phase.Some? && IsPlain(a.ctx.phase.value) && a.ctx.asked
    requires forall r | r in a.nodes :: a.nodes[r].server.updateMap == map[]
    ensures Occurs(ids, fifo, b) && b.ctx == a.ctx && b.nodes.Keys == a.nodes.Keys
    ensures forall r | r in a.nodes ::
              && b.nodes[r].up == [Tagged(PlainAnswer(a.ctx.phase.value), a.ctx.epoch, a.ctx.begun)]
                && b.nodes[r].down == []
              && b.nodes[r].server.updateMap == map[]
  {
    hide *;
    var m, t := AskBare(ids, fifo, a);
    b := Settle(ids, fifo, m, m.nodes.Keys);
    forall r | r in a.nodes
      ensures b.nodes[r].up == [Tagged(PlainAnswer(a.ctx.phase.value), a.ctx.epoch, a.ctx.begun)]
      ensures b.nodes[r].down == []
      ensures b.nodes[r].server.updateMap == map[]
    {
      PlainServed(m.ctx, m.nodes[r], t);
      BareKeepsUp(DeliverTo(m.ctx, m.nodes[r]));
    }
  }

  lemma AlreadyAsked(c: Ctx)
    requires c.asked
    ensures c.(asked := true) == c
  {
  }

  lemma BareKeepsUp(n: Node)
    ensures Bare(n, false) == n.(down := [])
  {
  }

  lemma EndSpared(c: Ctx, e: Ctx, f: Ctx, r: NodeId, n: Node, s: NodeId, k: nat)
    requires Ends(c, e, f) && Repeats(c.phases) && c.wrote < c.begun && r in e.client.serverIds
    requires (r == s ==> Heard(f, r) <= k)
    requires c.phase.Some? && n.up == [Tagged(PlainAnswer(c.phase.value), c.epoch, c.begun)] && n.down == []
    requires n.server.updateMap == map[]
    ensures Spared(f, r, n, s, k)
  {
    EndsHeard(c, e, f);
    assert IsPlain(c.phase.value) by { hide CtxInv, Grown; }
    hide Ends, IsPlain, PlainAnswer, Heard, Repeats;
    SameAnswers(c.phases, f.phases, c.begun, c.begun + 1);
    assert Answers(c.phases, c.begun, c.begun) == [];
  }

  lemma EndsAll(c: Ctx, e: Ctx, d: State, s: NodeId, k: nat)
    requires Ends(c, e, d.ctx) && Repeats(c.phases) && c.wrote < c.begun && d.nodes.Keys == e.client.serverIds
    requires c.phase.Some?
    requires s in d.nodes ==> Heard(d.ctx, s) <= k
    requires forall r | r in d.nodes ::
               && d.nodes[r].up == [Tagged(PlainAnswer(c.phase.value), c.epoch, c.begun)] && d.nodes[r].down == []
               && d.nodes[r].server.updateMap == map[]
    ensures AllSpared(d, s, k)
  {
    hide *;
    forall r | r in d.nodes
      ensures Spared(d.ctx, r, d.nodes[r], s, k)
    {
      EndSpared(c, e, d.ctx, r, d.nodes[r], s, k);
    }
    MakesAllSpared(d, s, k);
  }

  /** A step that ends a decision, in the other run: the answer that `a` reads is read, and kept. */
  lemma EndReading(ids: set<NodeId>, fifo: bool, a: State, step: Step, s: NodeId, k: nat) returns (d: State)
    requires Sane(a) && Enabled(a, step) && Occurs(ids, fifo, a) && Members(a) && CtxInv(a.ctx)
    requires NodesInv(a.ctx, a.nodes)
    requires Dated(a.ctx) && !Waiting(a.ctx) && Waiting(Do(a, step).ctx) && !Do(a, step).ctx.tainted && step.Receive?
    requires s in a.nodes ==> Heard(Do(a, step).ctx, s) <= k
    requires forall r | r in a.nodes :: a.nodes[r].server.updateMap == map[]
    ensures SpareRun(ids, fifo, Do(a, step), d, s, k)
  {
    hide *;
    var c, f := a.ctx, Do(a, step).ctx;
    OrderlyCtx(c);
    OrderlyMeans(c);
    AsMember(a);
    OtherKeys(a, step);
    DatedRepeats(c);
    AskedMeans(a);
    IsRunning(a, step);
    ReceiveEnds(a, step);
    var e := AfterPacket(c, step.s, a.nodes[step.s].up[0].msg);
    EndsParts(c, e, f);
    EndsPlain(c, e, f);
    var b := AnswerAgain(ids, fifo, a);
    d := ReadAndKeep(ids, fifo, b, step.s, 0);
    DoReceive(a, step);
    EndsAll(c, e, d, s, k);
    MakesSpareRun(ids, fifo, Do(a, step), d, s, k);
  }

  /** ... or the deadline is met, or a foreign packet read, after the last one. */
  lemma EndOtherwise(ids: set<NodeId>, fifo: bool, a: State, step: Step, s: NodeId, k: nat) returns (d: State)
    requires Sane(a) && Enabled(a, step) && Occurs(ids, fifo, a) && Members(a) && CtxInv(a.ctx)
    requires NodesInv(a.ctx, a.nodes)
    requires Dated(a.ctx) && !Waiting(a.ctx) && Waiting(Do(a, step).ctx) && !Do(a, step).ctx.tainted
    requires step.TimeOut? || step.ReceiveForeign?
    requires s in a.nodes ==> Heard(Do(a, step).ctx, s) <= k
    requires forall r | r in a.nodes :: a.nodes[r].server.updateMap == map[]
    ensures SpareRun(ids, fifo, Do(a, step), d, s, k)
  {
    hide *;
    var c, f := a.ctx, Do(a, step).ctx;
    OrderlyCtx(c);
    OrderlyMeans(c);
    AsMember(a);
    OtherKeys(a, step);
    DatedRepeats(c);
    OtherEnds(a, step);
    EndsParts(c, c, f);
    EndsPlain(c, c, f);
    var b := AnswerAgain(ids, fifo, a);
    d := SameStep(ids, fifo, a, b, step);
    EndsAll(c, c, d, s, k);
    MakesSpareRun(ids, fifo, Do(a, step), d, s, k);
  }

  /** A run whose last step ends a decision. */
  lemma EndSpares(ids: set<NodeId>, fifo: bool, steps: seq<Step>, st: State, a: State, step: Step, s: NodeId, k: nat)
        returns (d: State)
    requires Reached(ids, fifo, steps, st) && Sane(a) && Enabled(a, step) && st == Do(a, step) && Occurs(ids, fifo, a)
    requires Members(a) && CtxInv(a.ctx) && NodesInv(a.ctx, a.nodes) && Dated(a.ctx) && !Waiting(a.ctx)
    requires Waiting(st.ctx)
    requires s in a.nodes ==> Heard(st.ctx, s) <= k
    ensures SpareRun(ids, fifo, st, d, s, k)
  {
    hide *;
    NotTainted(ids, fifo, steps, st);
    BusyMeans(a.ctx);
    if step.Receive? {
      ReceiveEnds(a, step);
      EndsPlain(a.ctx, AfterPacket(a.ctx, step.s, a.nodes[step.s].up[0].msg), st.ctx) by { AskedMeans(a);
                                                                                          IsRunning(a, step); }
      NoneHeld(ids, fifo, steps, st, a, step);
      d := EndReading(ids, fifo, a, step, s, k);
    } else if step.TimeOut? || step.ReceiveForeign? {
      OtherEnds(a, step);
      EndsPlain(a.ctx, a.ctx, st.ctx);
      NoneHeld(ids, fifo, steps, st, a, step);
      d := EndOtherwise(ids, fifo, a, step, s, k);
    } else {
      StaysBusy(a, step);
      assert false;
    }
  }

  lemma DatedRepeats(c: Ctx)
    requires Dated(c)
    ensures Repeats(c.phases)
  {
  }

  lemma EndsPlain(c: Ctx, e: Ctx, f: Ctx)
    requires Ends(c, e, f)
    ensures c.phase.Some? && IsPlain(c.phase.value) && Running(c) && c.asked && f.client.updateId == 0
  {
    hide CtxInv, Grown;
  }

  lemma StaysBusy(a: State, step: Step)
    requires Sane(a) && Enabled(a, step) && a.ctx.phase.Some? && !Waiting(a.ctx)
    requires !step.Receive? && !step.TimeOut? && !step.ReceiveForeign?
    ensures !Waiting(Do(a, step).ctx)
  {
    hide DeliverTo, NetworkStep, Multicast;
  }

  /** With nothing cached, no server holds anything; the step has changed no server. */
  lemma NoneHeld(ids: set<NodeId>, fifo: bool, steps: seq<Step>, st: State, a: State, step: Step)
    requires Reached(ids, fifo, steps, st) && Sane(a) && Enabled(a, step) && st == Do(a, step)
    requires st.ctx.client.updateId == 0
    requires step.Receive? || step.TimeOut? || step.ReceiveForeign?
    ensures forall r | r in a.nodes :: a.nodes[r].server.updateMap == map[]
  {
    hide *;
    ReachedMeans(ids, fifo, steps, st);
    GoodMeans(st.ctx, st.nodes);
    CtxPieces(st.ctx);
    OtherKeys(a, step);
    forall r | r in a.nodes
      ensures a.nodes[r].server.updateMap == map[]
    {
      NodeOf(st.ctx, st.nodes, r);
      BoundaryNode(st.ctx, r, st.nodes[r]);
      CleanMeans(st.nodes[r].server);
      OnlyDeliveryChangesServers(a, step, r);
    }
  }

  lemma CleanMeans(sv: Server)
    requires sv.Clean()
    ensures sv.updateMap == map[]
  {
  }

  lemma InitialSpares(ids: set<NodeId>, fifo: bool, s: NodeId, k: nat)
    requires k > 0
    ensures SpareRun(ids, fifo, Initial(ids, fifo), Initial(ids, fifo), s, k)
  {
    var st := Initial(ids, fifo);
    assert Run(ids, fifo, []) == Some(st);
    forall r | r in st.nodes
      ensures Spared(st.ctx, r, st.nodes[r], s, k)
    {
      assert Answers(st.ctx.phases, 0, 0) == [];
    }
  }

  lemma LeaveVoteKeepsHeard(c: Ctx, ret: Ret, checked: bool)
    requires c.client.Valid()
    ensures LeaveVote(c, ret, checked).heard == c.heard
  {
    hide BeginDecision, CurrentTxn;
    BeginKeepsHeard(c, ABORT_OP);
    BeginKeepsHeard(c.(log := c.log + [CurrentTxn(c)], tainted := c.tainted || !checked), COMMIT_OP);
  }

  lemma LeaveCommitKeepsHeard(c: Ctx, ret: Ret)
    ensures LeaveCommit(c, ret).heard == c.heard
  {
    hide BeginDecision, StartPhase, Onward, WithinCall;
    if ret != NormalReturn {
      BeginKeepsHeard(c.(tainted := true), ABORT_OP);
    } else {
      BeginKeepsHeard(EndDecision(c.(client := c.client.Reset())), CLOSE_OP);
    }
  }

  lemma LeaveCloseKeepsHeard(c: Ctx, ret: Ret)
    ensures LeaveClose(c, ret).heard == c.heard
  {
    hide StartPhase;
    BeginKeepsHeard(c.(survivors := c.recv), VOTE_OP);
  }

  lemma LeaveOpenKeepsHeard(c: Ctx, ret: Ret)
    ensures LeaveOpen(c, ret).heard == c.heard && LeaveAbort(c, ret).heard == c.heard
  {
    LeaveAbortFields(c, ret);
    hide LeaveAbort;
  }

  lemma LeaveKeepsHeard(c: Ctx, ret: Ret, checked: bool)
    requires c.client.Valid() && c.phase.Some? && c.phase.value != INIT_OP
    ensures Leave(c, ret, checked).heard == c.heard
  {
    LeaveOpenKeepsHeard(c, ret);
    LeaveVoteKeepsHeard(c, ret, checked);
    LeaveCommitKeepsHeard(c, ret);
    LeaveCloseKeepsHeard(c, ret);
    hide LeaveOpen, LeaveVote, LeaveCommit, LeaveAbort, LeaveClose, Onward, WithinCall;
  }

  lemma CallKeepsHeard(c: Ctx, call: Step)
    requires c.client.Valid() && IsCall(call)
    ensures CalledCtx(c, call).heard == c.heard
  {
    hide StartPhase, BeginDecision, CloseSafe, CurrentTxn, Onward;
    match call {
      case CallOpen(name) =>
        BeginKeepsHeard(Naming(c), OPEN_OP);
        BeginKeepsHeard(Naming(c).(prevName := c.fileName, fileName := name), OPEN_OP);
      case CallWrite(u) =>
      case CallCommit => BeginKeepsHeard(Called(c, COMMIT_OP), VOTE_OP);
      case CallAbort => BeginKeepsHeard(Called(c, ABORT_OP), ABORT_OP);
      case CallClose => BeginKeepsHeard(Called(c, CLOSE_OP), CLOSE_OP);
    }
  }

  lemma BeginKeepsHeard(c: Ctx, op: Op)
    ensures StartPhase(c, op).heard == c.heard && BeginDecision(c, op).heard == c.heard
  {
    hide Clear;
  }

  lemma ReactHears(c: Ctx, from: NodeId, m: Message, s: NodeId)
    requires c.client.Valid() && c.phase.Some? && c.phase.value != INIT_OP
    ensures Heard(c, s) <= Heard(React(c, from, m).0, s)
  {
    var a, d := OnPacket(c.client, c.phase.value, c.recv, c.fd, from, m), AfterPacket(c, from, m);
    assert Heard(c, s) <= Heard(d, s) by { hide OnPacket; }
    hide *;
    ReactReceive(c, from, m, a, d);
    if a.exit.Some? {
      LeaveKeepsHeard(d, a.exit.value, from in c.client.serverIds);
      SameHeard(d, Leave(d, a.exit.value, from in c.client.serverIds), s);
    }
  }

  /** What is known to be answered stays so. */
  lemma HeardOnward(st: State, step: Step, s: NodeId)
    requires Sane(st) && Enabled(st, step) && Members(st)
    ensures Heard(st.ctx, s) <= Heard(Do(st, step).ctx, s)
  {
    var c := st.ctx;
    assert c.client.Valid();
    IsRunningOrNot(st, step);
    StepKinds(step);
    assert Heard(c.(asked := true), s) == Heard(c, s);
    hide *;
    if IsCall(step) {
      CallEffect(st, step);
      CallKeepsHeard(c, step);
      SameHeard(c, Do(st, step).ctx, s);
    } else if step.Receive? {
      IsRunning(st, step);
      DoReceive(st, step);
      ReactHears(c, step.s, st.nodes[step.s].up[0].msg, s);
    } else if step.TimeOut? || step.ReceiveForeign? || step.Repeat? {
      IsRunning(st, step);
      DoOtherwise(st, step);
      if step.TimeOut? {
        LeaveKeepsHeard(c, Finish(c.client, c.phase.value, c.recv), false);
        SameHeard(c, Do(st, step).ctx, s);
      } else if step.ReceiveForeign? {
        ReactHears(c, step.from, step.m, s);
      }
    } else {
      Unseen(st, step);
    }
  }

  /** In every run that kept the assumptions, whenever the client waits for neither a vote nor
      a decision on cached blocks: another run has the same client history and leaves every
      server with answers owed to all phases since it was last heard, in `s` to those up to
      number `k`; of all servers only `s` holds updates, and only if a block was accepted
      since phase `k` began. */
  lemma {:induction false} SparesRun(ids: set<NodeId>, fifo: bool, steps: seq<Step>, a: State, s: NodeId, k: nat)
        returns (b: State)
    requires Reached(ids, fifo, steps, a) && Waiting(a.ctx) && k > 0 && (s in a.nodes ==> Heard(a.ctx, s) <= k)
    ensures SpareRun(ids, fifo, a, b, s, k)
    decreases |steps|
  {
    hide *;
    if steps == [] {
      StartsInitial(ids, fifo, a);
      InitialSpares(ids, fifo, s, k);
      b := a;
    } else {
      ReachedBefore(ids, fifo, steps, a);
      var front, step := steps[..|steps| - 1], steps[|steps| - 1];
      var before := Run(ids, fifo, front).value;
      ReachedMeans(ids, fifo, front, before);
      GoodMeans(before.ctx, before.nodes);
      RunDated(ids, fifo, front, before);
      HeardOnward(before, step, s);
      if Waiting(before.ctx) {
        var c := SparesRun(ids, fifo, front, before, s, k);
        b := StepSpares(ids, fifo, before, c, step, s, k);
      } else {
        b := EndSpares(ids, fifo, steps, a, before, step, s, k);
      }
    }
  }

  lemma StartsInitial(ids: set<NodeId>, fifo: bool, a: State)
    requires Reached(ids, fifo, [], a)
    ensures a == Initial(ids, fifo)
  {
  }

  /** The answer of `s` to phase `k` itself comes after those to earlier phases. */
  lemma CutIsOwed(ids: set<NodeId>, fifo: bool, a: State, b: State, s: NodeId, k: nat)
    requires SpareRun(ids, fifo, a, b, s, k) && s in a.nodes
    requires Heard(a.ctx, s) <= k < AskedPhases(a.ctx) <= |a.ctx.phases|
    requires IsPlain(a.ctx.phases[k].op)
    ensures s in b.nodes
    ensures var i, p := |Answers(a.ctx.phases, Heard(a.ctx, s), k)|, a.ctx.phases[k];
            i < |b.nodes[s].up| && b.nodes[s].up[i] == Tagged(PlainAnswer(p.op), p.epoch, k)
  {
    hide *;
    var c := a.ctx;
    SpareRunMeans(ids, fifo, a, b, s, k);
    SparedAt(b, s, s, k);
    SparedLinks(c, s, b.nodes[s], s, k);
    AnsweredUpTo(c, s, k);
    AnswerAt(c.phases, Heard(c, s), k, k + 1);
    var i := |Answers(c.phases, Heard(c, s), k)|;
    assert b.nodes[s].up[i..][0] == b.nodes[s].up[i];
  }

  lemma AnsweredUpTo(c: Ctx, s: NodeId, k: nat)
    requires k < AskedPhases(c)
    ensures AnsweredPhases(c, s, s, k) == k + 1
  {
  }

  lemma SparedUpdates(c: Ctx, r: NodeId, n: Node, s: NodeId, k: nat)
    requires Spared(c, r, n, s, k)
    ensures n.down == [] && (n.server.updateMap != map[] <==> r == s && k <= c.wrote)
  {
  }

  /** In particular the client cannot tell whether any block has arrived anywhere: another run
      gives it the same history and leaves every server without updates, and nothing under way. */
  lemma QuietRun(ids: set<NodeId>, fifo: bool, steps: seq<Step>, a: State) returns (b: State)
    requires Reached(ids, fifo, steps, a) && Waiting(a.ctx)
    ensures Occurs(ids, fifo, b) && b.ctx == a.ctx && b.nodes.Keys == a.nodes.Keys
    ensures forall s | s in b.nodes ::
              b.nodes[s].server.updateMap == map[] && b.nodes[s].down == [] && b.nodes[s].up == []
  {
    hide *;
    var c := a.ctx;
    ReachedMeans(ids, fifo, steps, a);
    GoodMeans(c, a.nodes);
    RunDated(ids, fifo, steps, a);
    OrderlyCtx(c);
    OrderlyMeans(c);
    AsMember(a);
    var d := SparesRun(ids, fifo, steps, a, 0, c.begun + 1);
    SpareRunMeans(ids, fifo, a, d, 0, c.begun + 1);
    b := LosesAll(ids, fifo, d);
    forall s | s in b.nodes
      ensures b.nodes[s].server.updateMap == map[]
    {
      SparedAt(d, s, 0, c.begun + 1);
      SparedUpdates(c, s, d.nodes[s], 0, c.begun + 1);
    }
  }
}
