/** Exactly when a phase can count an acknowledgement that answers an earlier phase. */
module Staleness {
  import opened Messages
  import opened ServerSpec
  import opened Network
  import opened Protocol
  import opened Invariant
  import opened Preservation
  import opened Reachability
  import opened Runs

  /** No message of `op` on the links of `n` belongs to a phase before number `e`. */
  ghost predicate NoOlder(n: Node, op: Op, e: nat) {
    forall t | (t in n.up || t in n.down) && OpOf(t.msg) == Some(op) :: t.phase >= e
  }

  lemma ReplyOp(sv: Server, m: Message)
    requires sv.Valid()
    ensures var r := ServerStep(sv, m).reply; r.Some? && OpOf(r.value).Some? ==> OpOf(r.value) == OpOf(m)
  {
  }

  lemma DeliverNoOlder(c: Ctx, n: Node, op: Op, e: nat)
    requires n.down != [] && n.server.Valid() && NoOlder(n, op, e)
    ensures NoOlder(DeliverTo(c, n), op, e)
  {
    var t := n.down[0];
    assert t in n.down;
    ReplyOp(n.server, t.msg);
    hide ServerStep;
  }

  lemma NetworkNoOlder(n: Node, step: Step, op: Op, e: nat)
    requires step.Lose? || step.Duplicate? || step.Reorder?
    requires if step.Reorder? then step.i + 1 < |Link(n, step.up)| else step.i < |Link(n, step.up)|
    requires NoOlder(n, op, e)
    ensures NoOlder(NetworkStep(n, step), op, e)
  {
    QueueMembers(Link(n, step.up), step.i);
  }

  lemma MulticastNoOlder(nodes: map<NodeId, Node>, ms: seq<Message>, epoch: nat, phase: nat, s: NodeId, op: Op, e: nat)
    requires s in nodes && NoOlder(nodes[s], op, e) && phase >= e
    ensures NoOlder(Multicast(nodes, ms, epoch, phase)[s], op, e)
  {
    TagMembers(ms, epoch, phase);
  }

  /** Once there is no older message of the op on a server's links, there never is one. */
  lemma StepNoOlder(st: State, step: Step, s: NodeId, op: Op, e: nat)
    requires Sane(st) && Enabled(st, step) && s in st.nodes && st.ctx.begun >= e && NoOlder(st.nodes[s], op, e)
    ensures NoOlder(Do(st, step).nodes[s], op, e)
  {
    var n := st.nodes[s];
    hide React, Leave, NoOlder, DeliverTo, NetworkStep, Multicast;
    match step {
      case Deliver(r) =>
        if r == s {
          DeliverNoOlder(st.ctx, n, op, e);
        }
      case Lose(r, _, _) =>
        if r == s {
          NetworkNoOlder(n, step, op, e);
        }
      case Duplicate(r, _, _) =>
        if r == s {
          NetworkNoOlder(n, step, op, e);
        }
      case Reorder(r, _, _) =>
        if r == s {
          NetworkNoOlder(n, step, op, e);
        }
      case CallWrite(u) =>
        MulticastNoOlder(st.nodes, [WriteBlock(st.ctx.fd, st.ctx.client.updateId, u)], st.ctx.epoch, st.ctx.begun, s,
                         op, e);
      case Repeat =>
        MulticastNoOlder(st.nodes, [Request(st.ctx.phase.value, st.ctx.fd, st.ctx.fileName)], st.ctx.epoch,
                         st.ctx.begun, s, op, e);
      case ReceiveForeign(from, m) =>
        MulticastNoOlder(st.nodes, React(st.ctx, from, m).1, st.ctx.epoch, st.ctx.begun, s, op, e);
      case Receive(r) =>
        var popped := st.nodes[r := st.nodes[r].(up := st.nodes[r].up[1..])];
        PoppedNoOlder(st.nodes, r, s, op, e);
        MulticastNoOlder(popped, React(st.ctx, r, st.nodes[r].up[0].msg).1, st.ctx.epoch, st.ctx.begun, s, op, e);
      case CallClose => UnheldNoOlder(st.nodes, s, op, e);
      case _ =>
    }
  }

  lemma PoppedNoOlder(nodes: map<NodeId, Node>, r: NodeId, s: NodeId, op: Op, e: nat)
    requires r in nodes && s in nodes && nodes[r].up != [] && NoOlder(nodes[s], op, e)
    ensures NoOlder(nodes[r := nodes[r].(up := nodes[r].up[1..])][s], op, e)
  {
  }

  lemma UnheldNoOlder(nodes: map<NodeId, Node>, s: NodeId, op: Op, e: nat)
    requires s in nodes && NoOlder(nodes[s], op, e)
    ensures NoOlder(Unheld(nodes)[s], op, e)
  {
  }

  lemma {:induction false} RunNoOlder(st: State, steps: seq<Step>, s: NodeId, op: Op, e: nat)
    requires Sane(st) && s in st.nodes && st.ctx.begun >= e && NoOlder(st.nodes[s], op, e)
    requires RunFrom(st, steps).Some?
    ensures var r := RunFrom(st, steps).value; s in r.nodes && r.ctx.begun >= e && NoOlder(r.nodes[s], op, e)
  {
    if steps != [] {
      var n := |steps| - 1;
      RunNoOlder(st, steps[..n], s, op, e);
      StepNoOlder(RunFrom(st, steps[..n]).value, steps[n], s, op, e);
    }
  }

  // ----------------------------------------------------------------- the other direction

  /** The phase with number `k` runs and has sent its request, and the next answer of `s` that
      it would read is one to an earlier phase. */
  ghost predicate StaleAckNext(st: State, s: NodeId, op: Op, k: nat) {
    && st.ctx.phase == Some(op) && st.ctx.asked && st.ctx.begun == k && s in st.nodes && st.nodes[s].up != []
    && MatchesOp(st.nodes[s].up[0].msg, op) && st.nodes[s].up[0].phase < k
  }

  /** Some continuation leads to a stale answer of `s` being read in the phase. */
  ghost predicate CanReadStaleAck(st: State, s: NodeId, op: Op, k: nat)
    requires Sane(st)
  {
    exists r :: Leads(st, r) && StaleAckNext(r, s, op, k)
  }

  lemma OneStepBefore(st: State, step: Step, s: NodeId, op: Op, k: nat)
    requires Sane(st) && Enabled(st, step) && !IsCall(step) && CanReadStaleAck(Do(st, step), s, op, k)
    ensures CanReadStaleAck(st, s, op, k)
  {
    hide Leads, Do, Enabled, Sane, IsCall, StaleAckNext;
    LeadsSelf(st);
    LeadsOn(st, st, step);
    var r :| Leads(Do(st, step), r) && StaleAckNext(r, s, op, k);
    LeadsTransitive(st, Do(st, step), r);
  }

  lemma AskFirst(st: State, s: NodeId)
    requires Sane(st) && st.ctx.phase.Some? && st.ctx.phase.value != INIT_OP && s in st.nodes
    ensures Enabled(st, Repeat) && Do(st, Repeat).ctx == st.ctx.(asked := true)
    ensures s in Do(st, Repeat).nodes && Do(st, Repeat).nodes[s].up == st.nodes[s].up
  {
  }

  /** Everything before the stale answer can be lost. */
  lemma {:induction false} StaleAckCanBeRead(st: State, s: NodeId, op: Op, i: nat)
    requires Sane(st) && st.ctx.phase == Some(op) && op != INIT_OP && s in st.nodes && i < |st.nodes[s].up|
    requires MatchesOp(st.nodes[s].up[i].msg, op) && st.nodes[s].up[i].phase < st.ctx.begun
    ensures CanReadStaleAck(st, s, op, st.ctx.begun)
    decreases i
  {
    hide Sane, Do, Enabled, Leads;
    if i == 0 {
      AskFirst(st, s);
      LeadsSelf(st);
      LeadsOn(st, st, Repeat);
      assert StaleAckNext(Do(st, Repeat), s, op, st.ctx.begun);
    } else {
      hide CanReadStaleAck;
      LoseFirst(st, s, true);
      StaleAckCanBeRead(Do(st, Lose(s, true, 0)), s, op, i - 1);
      OneStepBefore(st, Lose(s, true, 0), s, op, st.ctx.begun);
    }
  }

  lemma FirstRequestAnswered(st: State, s: NodeId)
    requires Sane(st) && s in st.nodes && st.nodes[s].down != [] && IsRequest(st.nodes[s].down[0].msg)
    ensures Enabled(st, Deliver(s))
    ensures var n, r := st.nodes[s], Do(st, Deliver(s));
            && r.ctx == st.ctx && s in r.nodes && |r.nodes[s].up| == |n.up| + 1
            && r.nodes[s].up[|n.up|].phase == n.down[0].phase
            && OpOf(r.nodes[s].up[|n.up|].msg) == OpOf(n.down[0].msg) && IsAck(r.nodes[s].up[|n.up|].msg)
  {
    var n := st.nodes[s];
    ReplyShape(n.server, n.down[0].msg);
    hide ServerStep;
  }

  /** A stale request can be handled first, which makes a stale answer. */
  lemma {:induction false} StaleRequestCanBeRead(st: State, s: NodeId, op: Op, i: nat)
    requires Sane(st) && st.ctx.phase == Some(op) && op != INIT_OP && s in st.nodes && i < |st.nodes[s].down|
    requires IsRequest(st.nodes[s].down[i].msg) && OpOf(st.nodes[s].down[i].msg) == Some(op)
    requires st.nodes[s].down[i].phase < st.ctx.begun
    ensures CanReadStaleAck(st, s, op, st.ctx.begun)
    decreases i
  {
    hide Sane, Do, Enabled, CanReadStaleAck, IsRequest, OpOf, IsAck;
    if i == 0 {
      FirstRequestAnswered(st, s);
      AckMatches(Do(st, Deliver(s)).nodes[s].up[|st.nodes[s].up|].msg, op);
      StaleAckCanBeRead(Do(st, Deliver(s)), s, op, |st.nodes[s].up|);
      OneStepBefore(st, Deliver(s), s, op, st.ctx.begun);
    } else {
      LoseFirst(st, s, false);
      StaleRequestCanBeRead(Do(st, Lose(s, false, 0)), s, op, i - 1);
      OneStepBefore(st, Lose(s, false, 0), s, op, st.ctx.begun);
    }
  }

  lemma AckMatches(m: Message, op: Op)
    requires OpOf(m) == Some(op) && IsAck(m)
    ensures MatchesOp(m, op)
  {
  }

  /** The links of a server carry requests one way and acknowledgements the other, none
      from a later phase; in every run, tainted or not. */
  ghost predicate Directed(n: Node, k: nat) {
    && (forall t | t in n.up :: IsAck(t.msg) && t.phase <= k)
    && (forall t | t in n.down :: (t.msg.WriteBlock? || IsRequest(t.msg)) && t.phase <= k)
  }

  lemma DeliverDirected(c: Ctx, n: Node, k: nat)
    requires n.down != [] && n.server.Valid() && Directed(n, k)
    ensures Directed(DeliverTo(c, n), k)
  {
    var t := n.down[0];
    assert t in n.down;
    ReplyShape(n.server, t.msg);
    hide ServerStep;
  }

  lemma MulticastDirected(nodes: map<NodeId, Node>, ms: seq<Message>, epoch: nat, phase: nat, s: NodeId)
    requires s in nodes && Directed(nodes[s], phase) && forall m | m in ms :: m.WriteBlock? || IsRequest(m)
    ensures Directed(Multicast(nodes, ms, epoch, phase)[s], phase)
  {
    TagMembers(ms, epoch, phase);
  }

  lemma ReactSendsBlocks(c: Ctx, from: NodeId, m: Message)
    requires c.client.Valid() && c.phase.Some? && c.phase.value != INIT_OP
    ensures forall r | r in React(c, from, m).1 :: r.WriteBlock?
  {
    hide Leave;
  }

  lemma NetworkDirected(n: Node, step: Step, k: nat)
    requires step.Lose? || step.Duplicate? || step.Reorder?
    requires if step.Reorder? then step.i + 1 < |Link(n, step.up)| else step.i < |Link(n, step.up)|
    requires Directed(n, k)
    ensures Directed(NetworkStep(n, step), k)
  {
    QueueMembers(Link(n, step.up), step.i);
  }

  lemma OnwardDirected(n: Node, k: nat, l: nat)
    requires Directed(n, k) && k <= l
    ensures Directed(n, l)
  {
  }

  lemma StepDirected(st: State, step: Step, s: NodeId)
    requires Sane(st) && Enabled(st, step) && s in st.nodes && Directed(st.nodes[s], st.ctx.begun)
    ensures Directed(Do(st, step).nodes[s], Do(st, step).ctx.begun)
  {
    hide React, Leave, DeliverTo, Multicast, NetworkStep, Directed, IsRequest, WithinCall;
    var n, c := st.nodes[s], st.ctx;
    if (step.Lose? || step.Duplicate? || step.Reorder?) && step.s == s {
      NetworkDirected(n, step, c.begun);
    } else if step == Deliver(s) {
      DeliverDirected(c, n, c.begun);
    } else if step.CallWrite? {
      MulticastDirected(st.nodes, [WriteBlock(c.fd, c.client.updateId, step.u)], c.epoch, c.begun, s);
    } else if step.Repeat? {
      RequestsAre(c);
      MulticastDirected(st.nodes, [Request(c.phase.value, c.fd, c.fileName)], c.epoch, c.begun, s);
    } else if step.ReceiveForeign? {
      ReactSendsBlocks(c, step.from, step.m);
      MulticastDirected(st.nodes, React(c, step.from, step.m).1, c.epoch, c.begun, s);
    } else if step.Receive? {
      var popped := st.nodes[step.s := st.nodes[step.s].(up := st.nodes[step.s].up[1..])];
      PoppedDirected(st.nodes, step.s, s, c.begun);
      ReactSendsBlocks(c, step.s, st.nodes[step.s].up[0].msg);
      MulticastDirected(popped, React(c, step.s, st.nodes[step.s].up[0].msg).1, c.epoch, c.begun, s);
    } else if step.CallClose? {
      UnheldDirected(st.nodes, s, c.begun);
    }
    OnwardDirected(Do(st, step).nodes[s], c.begun, Do(st, step).ctx.begun);
  }

  lemma RequestsAre(c: Ctx)
    requires c.phase.Some? && c.phase.value != INIT_OP
    ensures IsRequest(Request(c.phase.value, c.fd, c.fileName))
  {
  }

  lemma PoppedDirected(nodes: map<NodeId, Node>, r: NodeId, s: NodeId, k: nat)
    requires r in nodes && s in nodes && nodes[r].up != [] && Directed(nodes[s], k)
    ensures Directed(nodes[r := nodes[r].(up := nodes[r].up[1..])][s], k)
  {
  }

  lemma UnheldDirected(nodes: map<NodeId, Node>, s: NodeId, k: nat)
    requires s in nodes && Directed(nodes[s], k)
    ensures Directed(Unheld(nodes)[s], k)
  {
  }

  lemma {:induction false} RunDirected(ids: set<NodeId>, fifo: bool, steps: seq<Step>, s: NodeId)
    requires Run(ids, fifo, steps).Some? && s in Run(ids, fifo, steps).value.nodes
    ensures var r := Run(ids, fifo, steps).value; Directed(r.nodes[s], r.ctx.begun)
  {
    if steps != [] {
      var n := |steps| - 1;
      RunDirected(ids, fifo, steps[..n], s);
      StepDirected(Run(ids, fifo, steps[..n]).value, steps[n], s);
    }
  }

  lemma NoStaleAckNext(st: State, s: NodeId, op: Op, k: nat)
    requires s in st.nodes && NoOlder(st.nodes[s], op, k) && op != INIT_OP
    ensures !StaleAckNext(st, s, op, k)
  {
    assert forall q: Queue :: q != [] ==> q[0] in q;
  }

  lemma NothingLeftIsNeverStale(begun: State, s: NodeId, op: Op)
    requires Sane(begun) && s in begun.nodes && NoneOf(begun.nodes[s], op) && op != INIT_OP
    ensures !CanReadStaleAck(begun, s, op, begun.ctx.begun)
  {
    var k := begun.ctx.begun;
    assert NoOlder(begun.nodes[s], op, k);
    hide NoneOf, NoOlder, StaleAckNext, RunFrom, Sane, NoCalls;
    forall r | Leads(begun, r)
      ensures !StaleAckNext(r, s, op, k)
    {
      var more :| NoCalls(more) && RunFrom(begun, more) == Some(r);
      RunNoOlder(begun, more, s, op, k);
      NoStaleAckNext(r, s, op, k);
    }
  }

  lemma SomethingLeftCanBeStale(begun: State, s: NodeId, op: Op)
    requires Sane(begun) && s in begun.nodes && !NoneOf(begun.nodes[s], op) && begun.ctx.phase == Some(op)
    requires op != INIT_OP
    requires begun.ctx.begun > 0 && Directed(begun.nodes[s], begun.ctx.begun - 1)
    ensures CanReadStaleAck(begun, s, op, begun.ctx.begun)
  {
    var n := begun.nodes[s];
    var t :| (t in n.up || t in n.down) && OpOf(t.msg) == Some(op);
    if t in n.up {
      var i :| 0 <= i < |n.up| && n.up[i] == t;
      StaleAckCanBeRead(begun, s, op, i);
    } else {
      var i :| 0 <= i < |n.down| && n.down[i] == t;
      StaleRequestCanBeRead(begun, s, op, i);
    }
  }

  /** The op of the first phase of a call. */
  function FirstOp(call: Step): Op
    requires IsCall(call) && !call.CallWrite?
  {
    match call
    case CallOpen(_) => OPEN_OP
    case CallCommit => VOTE_OP
    case CallAbort => ABORT_OP
    case CallClose => CLOSE_OP
  }

  lemma CallBegins(st: State, call: Step, s: NodeId)
    requires Sane(st) && Enabled(st, call) && IsCall(call) && !call.CallWrite? && s in st.nodes
    ensures var begun := Do(st, call);
            && begun.ctx.phase == Some(FirstOp(call)) && begun.ctx.begun == st.ctx.begun + 1 && s in begun.nodes
            && begun.nodes[s].up == st.nodes[s].up && begun.nodes[s].down == st.nodes[s].down
  {
    CallEffect(st, call);
    BeginsPhase(st.ctx, call);
    hide Do, Sane, Enabled, CalledCtx;
  }

  lemma BeginsPhase(c: Ctx, call: Step)
    requires c.client.Valid() && IsCall(call) && !call.CallWrite?
    ensures CalledCtx(c, call).phase == Some(FirstOp(call)) && CalledCtx(c, call).begun == c.begun + 1
  {
    hide StartPhase, BeginDecision, CloseSafe, CurrentTxn;
    match call {
      case CallOpen(name) =>
        BegunOnce(Naming(c), OPEN_OP);
        BegunOnce(Naming(c).(prevName := c.fileName, fileName := name), OPEN_OP);
      case CallCommit => BegunOnce(Called(c, COMMIT_OP), VOTE_OP);
      case CallAbort => BegunOnce(Called(c, ABORT_OP), ABORT_OP);
      case CallClose => BegunOnce(Called(c, CLOSE_OP), CLOSE_OP);
    }
  }

  lemma BegunOnce(c: Ctx, op: Op)
    ensures StartPhase(c, op).phase == Some(op) && StartPhase(c, op).begun == c.begun + 1
    ensures BeginDecision(c, op).phase == Some(op) && BeginDecision(c, op).begun == c.begun + 1
  {
    hide Clear;
  }

  /** Exact freshness, by what is under way. Take any run, tainted or not, and call
      OpenFile, Commit, Abort or CloseFile at its end: the call's first phase can read a
      stale answer of server `s` if and only if, at the call, a message of the phase's op,
      request or answer, is still on a link of `s`. */
  lemma StaleAckIffMessageLeft(ids: set<NodeId>, fifo: bool, steps: seq<Step>, st: State, call: Step, s: NodeId)
    requires Run(ids, fifo, steps) == Some(st) && Enabled(st, call) && IsCall(call) && !call.CallWrite? && s in st.nodes
    ensures var begun := Do(st, call);
            CanReadStaleAck(begun, s, FirstOp(call), begun.ctx.begun) <==> !NoneOf(st.nodes[s], FirstOp(call))
  {
    RunDirected(ids, fifo, steps, s);
    CallBegins(st, call, s);
    var op, begun := FirstOp(call), Do(st, call);
    SameLinks(st.nodes[s], begun.nodes[s], op, st.ctx.begun);
    hide Do, CanReadStaleAck, Run, Directed, NoneOf, Enabled;
    if NoneOf(st.nodes[s], op) {
      NothingLeftIsNeverStale(begun, s, op);
    } else {
      SomethingLeftCanBeStale(begun, s, op);
    }
  }

  lemma SameLinks(n: Node, m: Node, op: Op, k: nat)
    requires n.up == m.up && n.down == m.down
    ensures NoneOf(n, op) <==> NoneOf(m, op)
    ensures Directed(n, k) <==> Directed(m, k)
  {
  }
}
