/** What holds in every reachable state of a run that kept the assumptions. */
module Invariant {
  import opened Messages
  import opened ServerSpec
  import opened Network
  import opened Protocol

  /** The phase a message belongs to; writes belong to none. */
  function OpOf(m: Message): Option<Op> {
    match m
    case OpenFile(_, _) => Some(OPEN_OP)
    case OpenFileAck(_) => Some(OPEN_OP)
    case Vote(_) => Some(VOTE_OP)
    case VoteAck(_, _) => Some(VOTE_OP)
    case Commit(_) => Some(COMMIT_OP)
    case CommitAck(_) => Some(COMMIT_OP)
    case Abort(_) => Some(ABORT_OP)
    case AbortAck(_) => Some(ABORT_OP)
    case Close(_) => Some(CLOSE_OP)
    case CloseAck(_) => Some(CLOSE_OP)
    case _ => None
  }

  predicate IsRequest(m: Message) {
    m.OpenFile? || m.Vote? || m.Commit? || m.Abort? || m.Close?
  }

  predicate IsAck(m: Message) {
    m.OpenFileAck? || m.VoteAck? || m.CommitAck? || m.AbortAck? || m.CloseAck?
  }

  /** The message belongs to a phase of its op, and carries that phase's number and epoch. */
  predicate TagOk(c: Ctx, t: Tagged)
    requires OpOf(t.msg).Some?
  {
    var op := OpOf(t.msg).value;
    && t.phase < |c.phases| && c.phases[t.phase] == Phase(op, t.epoch)
    && op in c.started && t.phase <= c.started[op]
    && EpochOk(c, op, t.epoch)
  }

  /** Decisions have odd epochs; OPEN and ABORT phases need not be decisions. */
  predicate EpochOk(c: Ctx, op: Op, e: nat) {
    if e % 2 == 1 then IsDecision(op) && e / 2 < |c.decided| && c.decided[e / 2] == op else op != COMMIT_OP
  }

  /** In a phase that started clear, every message of the phase's op belongs to the phase. */
  predicate NotStale(c: Ctx, t: Tagged) {
    c.clear && c.phase.Some? && OpOf(t.msg) == c.phase ==> t.phase == c.begun
  }

  ghost predicate DownMsgOk(c: Ctx, t: Tagged) {
    && NotStale(c, t)
    && (t.msg.WriteBlock? || IsRequest(t.msg))
    && (OpOf(t.msg).Some? ==> TagOk(c, t))
    && (t.msg.OpenFile? ==> t.msg.filename == c.fileName)
    && (t.msg.WriteBlock? ==>
          && t.epoch % 2 == 0
          && t.msg.updateId in c.client.updateMap && c.client.updateMap[t.msg.updateId] == t.msg.update)
  }

  ghost predicate UpMsgOk(c: Ctx, sv: Server, t: Tagged) {
    && NotStale(c, t)
    && IsAck(t.msg)
    && TagOk(c, t)
    && (t.msg.fileDesc == 0 || (t.msg.fileDesc == 1 && t.msg.CloseAck?))
    && (t.msg.VoteAck? && t.epoch == c.epoch ==> t.msg.updateId <= sv.nextUpdateId)
  }

  /** Nothing a server has still to send is older than this epoch. */
  function Floor(c: Ctx, s: NodeId): nat {
    if Heard(c, s) < |c.phases| then c.phases[Heard(c, s)].epoch else 0
  }

  ghost predicate Ordered(c: Ctx, s: NodeId, n: Node) {
    && s in c.client.serverIds
    && Pairwise(n.up, EpochLe) && Pairwise(n.down, EpochLe)
    && Floor(c, s) <= n.seen <= c.epoch
    && (forall t | t in n.up :: Floor(c, s) <= t.epoch <= n.seen)
    && (forall t | t in n.down :: n.seen <= t.epoch <= c.epoch)
  }

  /** Requests and answers travel in the order of their phases; only votes may overtake. */
  predicate NumberLe(a: Tagged, b: Tagged) {
    OpOf(a.msg).Some? && OpOf(b.msg).Some? && !(OpOf(a.msg) == OpOf(b.msg) == Some(VOTE_OP)) ==> a.phase <= b.phase
  }

  /** Nothing on the links answers, or asks for an answer to, a phase before `Heard`. */
  ghost predicate Numbered(c: Ctx, s: NodeId, n: Node) {
    && Pairwise(n.up, NumberLe) && Pairwise(n.down, NumberLe)
    && (forall t | t in n.up :: Heard(c, s) <= t.phase)
    && (forall t | t in n.down && OpOf(t.msg).Some? :: Heard(c, s) <= t.phase)
    && (forall t, u | t in n.up && u in n.down :: NumberLe(t, u))
  }

  ghost predicate DownOk(c: Ctx, n: Node) {
    forall t | t in n.down :: DownMsgOk(c, t)
  }

  ghost predicate UpOk(c: Ctx, n: Node) {
    forall t | t in n.up :: UpMsgOk(c, n.server, t)
  }

  /** A decision of this op is under way and has not reached the server. */
  predicate Before(c: Ctx, n: Node, op: Op) {
    Deciding(c) && c.decided != [] && c.decided[|c.decided| - 1] == op && n.seen < c.epoch
  }

  /** The committed transactions whose effect the server's disk must show. */
  function Applied(c: Ctx, n: Node): seq<Txn> {
    if Before(c, n, COMMIT_OP) && c.log != [] then c.log[..|c.log| - 1] else c.log
  }

  /** The latest message the server handled was of a phase of this op. */
  predicate LastHandled(c: Ctx, n: Node, op: Op) {
    n.seen % 2 == 1 && n.seen / 2 < |c.decided| && c.decided[n.seen / 2] == op
  }

  ghost predicate ServerOk(c: Ctx, n: Node) {
    var sv := n.server;
    && sv.Valid()
    && Submap(sv.updateMap, c.client.updateMap)
    && sv.disk == DiskAfter(Applied(c, n))
    && sv.fileName == (if Before(c, n, OPEN_OP) then c.prevName else c.fileName)
    && (LastHandled(c, n, COMMIT_OP) || LastHandled(c, n, ABORT_OP) ==> sv.Clean())
    && (LastHandled(c, n, COMMIT_OP) ==> sv.fileName in sv.disk)
    && (Before(c, n, COMMIT_OP) ==> sv.updateMap == c.client.updateMap && sv.nextUpdateId == c.client.updateId)
  }

  /** An answer on record is never above what the server holds. */
  ghost predicate Recorded(c: Ctx, s: NodeId, n: Node) {
    c.phase == Some(VOTE_OP) && s in c.client.recvServerUpdateId ==>
      c.client.recvServerUpdateId[s] <= n.server.nextUpdateId
  }

  /** No vote or decision is under way: what a server holds changes only by blocks. */
  predicate Calm(c: Ctx) {
    !Deciding(c) && c.phase != Some(VOTE_OP)
  }

  ghost predicate NoWrites(q: Queue) {
    forall t | t in q :: !t.msg.WriteBlock?
  }

  /** No block follows a CLOSE sent after the latest block. */
  function CloseLast(wrote: nat): (Tagged, Tagged) -> bool {
    (a: Tagged, b: Tagged) => a.msg.Close? && wrote < a.phase ==> !b.msg.WriteBlock?
  }

  /** A server that has handled a CLOSE sent after the latest block holds what it then held. */
  ghost predicate Closing(c: Ctx, s: NodeId, n: Node) {
    Calm(c) ==>
      && Pairwise(n.down, CloseLast(c.wrote))
      && (forall t | t in n.up && t.msg.CloseAck? && c.wrote < t.phase ::
            NoWrites(n.down) && (t.msg.fileDesc == 1 <==> n.server.updateMap != map[]))
      && (c.phase == Some(CLOSE_OP) && CloseFresh(c, s) ==>
            && (s in c.recv ==> NoWrites(n.down) && n.server.updateMap == map[])
            && (n.held && !c.second ==> NoWrites(n.down) && n.server.updateMap != map[] && n.seen == c.epoch))
  }

  predicate IdleAbort(t: Tagged) {
    t.msg.Abort? && t.epoch % 2 == 0
  }

  predicate AbortFirst(a: Tagged, b: Tagged) {
    IdleAbort(b) ==> !a.msg.WriteBlock?
  }

  /** An ABORT that was sent with nothing cached finds nothing on the server. */
  ghost predicate Idling(n: Node) {
    Pairwise(n.down, AbortFirst) && forall t | t in n.down && IdleAbort(t) :: n.server.updateMap == map[]
  }

  /** CloseFile returned normally without a commit inside it, and the call was safe. */
  predicate ClosedWithoutCommit(c: Ctx) {
    c.returned == Returned(CLOSE_OP, true) && c.closeSafe && !c.second
  }

  /** On FIFO links the answers to a vote arrive in increasing order. */
  ghost predicate Increasing(c: Ctx, s: NodeId, n: Node) {
    c.fifo && c.phase == Some(VOTE_OP) ==>
      && Pairwise(n.up, VotesLe)
      && (s in c.client.recvServerUpdateId ==>
            forall t | t in n.up && t.msg.VoteAck? :: c.client.recvServerUpdateId[s] <= t.msg.updateId)
  }

  /** The part that does not depend on how the running phase is counted. */
  ghost predicate Core(c: Ctx, s: NodeId, n: Node) {
    Ordered(c, s, n) && Numbered(c, s, n) && DownOk(c, n) && UpOk(c, n) && ServerOk(c, n) && Idling(n)
  }

  ghost predicate NodeInv(c: Ctx, s: NodeId, n: Node) {
    && Core(c, s, n)
    && Recorded(c, s, n) && Closing(c, s, n) && Increasing(c, s, n)
    && (ClosedWithoutCommit(c) ==> !n.held)
  }

  /** Every server has been heard in this epoch or later. */
  predicate HeardSince(c: Ctx, e: int) {
    forall s | s in c.client.serverIds :: e <= Floor(c, s)
  }

  /** The list of phases and what is derived from it. */
  ghost predicate History(c: Ctx) {
    && |c.phases| == c.begun + 1 && c.wrote <= c.begun
    && (forall k | 0 <= k < |c.phases| ::
          var p := c.phases[k];
          p.op in c.started && k <= c.started[p.op] && p.epoch <= c.epoch && EpochOk(c, p.op, p.epoch))
    && (forall j, k | 0 <= j <= k < |c.phases| :: c.phases[j].epoch <= c.phases[k].epoch)
    && (forall op | op in c.started :: c.started[op] <= c.begun && c.phases[c.started[op]].op == op)
    && (forall s | s in c.client.serverIds :: Heard(c, s) <= c.begun)
  }

  /** A decision under way is the only one of its op that a server may still answer. */
  ghost predicate OnlyDecision(c: Ctx) {
    Deciding(c) && c.decided != [] ==>
      forall s, k | s in c.client.serverIds && Heard(c, s) <= k < |c.phases| ::
        c.phases[k].op == c.decided[|c.decided| - 1] ==> c.phases[k].epoch == c.epoch
  }

  /** The epoch, the phase and the history fit together. */
  ghost predicate Fitting(c: Ctx) {
    && |c.phases| == c.begun + 1 && |c.decided| == (c.epoch + 1) / 2
    && (c.phase.Some? ==>
          && c.phase.value != INIT_OP && c.phases[c.begun] == Phase(c.phase.value, c.epoch)
          && (c.phase.value != CLOSE_OP && c.phase.value != OPEN_OP && !Idle(c) ==> c.clear))
    && (Deciding(c) ==>
          && c.decided[|c.decided| - 1] == c.phases[c.begun].op && c.phases[c.begun].epoch == c.epoch
          && (c.phase.None? ==> c.phases[c.begun].op == OPEN_OP && !c.isFileOpen && c.client.serverIds != {}))
    && HeardSince(c, c.epoch - (if Deciding(c) && c.phase != Some(COMMIT_OP) then 2 else 1))
    && (forall k | 0 <= k < |c.phases| && c.phases[k] == Phase(VOTE_OP, c.epoch) ::
          c.phase == Some(VOTE_OP) && k == c.begun)
  }

  ghost predicate PhaseInv(c: Ctx) {
    History(c) && OnlyDecision(c) && Fitting(c)
  }

  /** The running OPEN or ABORT phase is no decision: it changes no server. */
  predicate Idle(c: Ctx) {
    (c.phase == Some(OPEN_OP) || c.phase == Some(ABORT_OP)) && !Deciding(c)
  }

  ghost predicate ClientInv(c: Ctx) {
    && c.client.Valid() && c.client.updateId <= MAX_UINT32
    && c.recv <= c.client.serverIds && |c.client.serverIds| == c.client.numServers
    && (!c.second && !Idle(c) ==> forall s | s in c.recv :: Floor(c, s) == c.epoch)
    && (c.phase == Some(VOTE_OP) ==> c.client.recvServerUpdateId.Keys == c.recv)
    && (c.phase.None? || c.phase == Some(OPEN_OP) || c.phase == Some(CLOSE_OP) || Idle(c) ==>
          c.client.recvServerUpdateId == map[]) && (c.phase == Some(ABORT_OP) && Idle(c) ==> c.client.updateId == 0)
    && (c.phase == Some(COMMIT_OP) ==> c.log != [] && c.log[|c.log| - 1] == CurrentTxn(c))
  }

  /** What a Commit or CloseFile call commits is what was cached when it was made; one that
      returns an error, with the exception of a second CLOSE pass, has committed nothing. */
  ghost predicate CallInv(c: Ctx)
    requires c.client.Valid()
  {
    var committed := |c.log| == c.callLog + 1 && c.log[c.callLog] == c.callTxn;
    && (c.phase == Some(CLOSE_OP) ==> c.call == CLOSE_OP)
    && (c.phase == Some(VOTE_OP) || c.phase == Some(COMMIT_OP) ==> c.call == COMMIT_OP || c.call == CLOSE_OP)
    && (c.phase == Some(ABORT_OP) ==> c.call == ABORT_OP || c.call == COMMIT_OP || c.call == CLOSE_OP)
    && (c.phase.Some? && c.second ==> c.phase == Some(CLOSE_OP))
    && (c.phase == Some(CLOSE_OP) && c.second ==> c.client.updateId == 0 && c.clear && CloseSafe(c))
    && (c.phase == Some(VOTE_OP) || (c.phase == Some(CLOSE_OP) && !c.second) ==>
          |c.log| == c.callLog && CurrentTxn(c) == c.callTxn)
    && (c.phase == Some(ABORT_OP) && c.call != ABORT_OP ==> |c.log| == c.callLog)
    && (c.phase == Some(COMMIT_OP) || (c.phase == Some(CLOSE_OP) && c.second) ==> committed)
    && (c.returned == Returned(COMMIT_OP, true) ==> committed)
    && (c.returned == Returned(COMMIT_OP, false) ==> |c.log| == c.callLog)
    && (c.returned.Returned? && c.returned.call == CLOSE_OP ==> if c.second then committed else |c.log| == c.callLog)
    && (c.phase == Some(CLOSE_OP) && !c.second && c.closeSafe ==> CloseSafe(c))
    && (c.phase.Some? ==> c.returned == Nothing) && (c.returned == Returned(OPEN_OP, true) ==> c.isFileOpen)
    && (c.returned == Returned(COMMIT_OP, true) || c.returned == Returned(ABORT_OP, true) ==> c.client.updateId == 0)
    && c.survivors <= c.client.serverIds
  }

  ghost predicate CtxInv(c: Ctx) {
    PhaseInv(c) && ClientInv(c) && CallInv(c)
  }

  ghost predicate NodesInv(c: Ctx, nodes: map<NodeId, Node>) {
    forall s | s in nodes :: NodeInv(c, s, nodes[s])
  }

  ghost predicate Good(c: Ctx, nodes: map<NodeId, Node>) {
    CtxInv(c) && NodesInv(c, nodes)
  }

  /** The nodes of the model are the servers the client counts. */
  predicate Members(st: State) {
    st.ctx.client.serverIds == st.nodes.Keys && st.ctx.client.numServers == |st.nodes.Keys|
  }

  ghost predicate Inv(st: State) {
    Members(st) && (!st.ctx.tainted ==> Good(st.ctx, st.nodes))
  }

  // ------------------------------------------------------------------ links and servers

  /** The orders the invariant asks of the two links. */
  ghost predicate LinkOrders(c: Ctx, up: Queue, down: Queue) {
    && Pairwise(up, EpochLe) && Pairwise(down, EpochLe)
    && Pairwise(up, NumberLe) && Pairwise(down, NumberLe) && Pairwise(down, AbortFirst)
    && (Calm(c) ==> Pairwise(down, CloseLast(c.wrote)))
    && (c.fifo && c.phase == Some(VOTE_OP) ==> Pairwise(up, VotesLe))
  }

  lemma FewerMessages(c: Ctx, s: NodeId, n: Node, m: Node)
    requires NodeInv(c, s, n) && m == n.(up := m.up, down := m.down)
    requires (forall t | t in m.up :: t in n.up) && (forall t | t in m.down :: t in n.down)
    requires LinkOrders(c, m.up, m.down)
    ensures NodeInv(c, s, m)
  {
    assert Ordered(c, s, m) && Numbered(c, s, m) && DownOk(c, m) && UpOk(c, m);
    assert ServerOk(c, m) && Idling(m);
    assert Recorded(c, s, m) && Closing(c, s, m) && Increasing(c, s, m);
  }

  lemma NetworkStepKeeps(c: Ctx, s: NodeId, n: Node, step: Step)
    requires NodeInv(c, s, n)
    requires step.Lose? || step.Duplicate? || step.Reorder?
    requires if step.Reorder? then step.i + 1 < |Link(n, step.up)| else step.i < |Link(n, step.up)|
    requires step.Reorder? ==> !c.fifo && MayOvertake(Link(n, step.up)[step.i], Link(n, step.up)[step.i + 1])
    ensures NodeInv(c, s, NetworkStep(n, step))
  {
    var q, i := Link(n, step.up), step.i;
    var m := NetworkStep(n, step);
    QueueMembers(q, i);
    OrdersPart(c, s, n);
    NetworkOrders(c, n, step);
    hide NodeInv, LinkOrders, Without, Doubled, Exchanged;
    FewerMessages(c, s, n, m);
  }

  lemma OrdersPart(c: Ctx, s: NodeId, n: Node)
    requires NodeInv(c, s, n)
    ensures LinkOrders(c, n.up, n.down)
  {
    hide Pairwise, DownOk, UpOk, ServerOk;
  }

  lemma NetworkOrders(c: Ctx, n: Node, step: Step)
    requires LinkOrders(c, n.up, n.down)
    requires step.Lose? || step.Duplicate? || step.Reorder?
    requires if step.Reorder? then step.i + 1 < |Link(n, step.up)| else step.i < |Link(n, step.up)|
    requires step.Reorder? ==> !c.fifo && MayOvertake(Link(n, step.up)[step.i], Link(n, step.up)[step.i + 1])
    ensures LinkOrders(c, NetworkStep(n, step).up, NetworkStep(n, step).down)
  {
    var q, i := Link(n, step.up), step.i;
    QueueOrders(q, i, EpochLe);
    QueueOrders(q, i, NumberLe);
    if !step.up {
      QueueOrders(q, i, AbortFirst);
      if Calm(c) {
        QueueOrders(q, i, CloseLast(c.wrote));
      }
    } else if c.fifo && c.phase == Some(VOTE_OP) {
      QueueOrders(q, i, VotesLe);
    }
    hide Pairwise, Without, Doubled, Exchanged;
  }

  /** The client takes the first answer off a link. */
  lemma PopKeeps(c: Ctx, s: NodeId, n: Node)
    requires NodeInv(c, s, n) && n.up != []
    ensures NodeInv(c, s, n.(up := n.up[1..]))
  {
    NetworkStepKeeps(c, s, n, Lose(s, true, 0));
    assert Without(n.up, 0) == n.up[1..];
  }

  lemma FirstDown(c: Ctx, s: NodeId, n: Node)
    requires Core(c, s, n) && n.down != []
    ensures n.server.Valid()
    ensures var m := n.down[0].msg; m.WriteBlock? || m.OpenFile? || m.Vote? || m.Commit? || m.Abort? || m.Close?
    ensures DownMsgOk(c, n.down[0]) && n.seen <= n.down[0].epoch <= c.epoch
  {
    assert n.down[0] in n.down;
  }

  lemma DeliverOrdered(c: Ctx, s: NodeId, n: Node)
    requires NodeInv(c, s, n) && n.down != []
    ensures var r := DeliverTo(c, n);
            && Ordered(c, s, r) && DownOk(c, r) && r.seen == n.down[0].epoch
            && (forall t | t in r.up :: t in n.up || t.epoch == r.seen)
  {
    assert n.server.Valid();
    hide Numbered, Idling, ServerOk, UpOk, Recorded, Closing, Increasing;
    var t, r := n.down[0], DeliverTo(c, n);
    assert t in n.down;
    assert forall u | u in n.down :: t.epoch <= u.epoch;
    if r.up != n.up {
      var ack := r.up[|n.up|];
      AppendOrders(n.up, [ack], EpochLe);
    }
  }

  /** The answer to a request takes the request's place in the order of phases. */
  lemma DeliverNumbered(c: Ctx, s: NodeId, n: Node)
    requires Core(c, s, n) && n.down != []
    ensures Numbered(c, s, DeliverTo(c, n))
  {
    FirstDown(c, s, n);
    ReplyShape(n.server, n.down[0].msg);
    hide Ordered, DownOk, UpOk, ServerOk, Idling;
    AnswerNumbered(c, s, n, DeliverTo(c, n));
  }

  lemma AnswerNumbered(c: Ctx, s: NodeId, n: Node, r: Node)
    requires Numbered(c, s, n) && n.down != [] && r.down == n.down[1..]
    requires r.up == n.up || (|r.up| == |n.up| + 1 && r.up[..|n.up|] == n.up && OpOf(r.up[|n.up|].msg).Some?
                              && OpOf(r.up[|n.up|].msg) == OpOf(n.down[0].msg) && r.up[|n.up|].phase == n.down[0].phase)
    ensures Numbered(c, s, r)
  {
    hide OpOf;
    var t := n.down[0];
    assert t in n.down;
    assert forall j | 0 < j < |n.down| :: NumberLe(n.down[0], n.down[j]);
    if r.up != n.up {
      var ack := r.up[|n.up|];
      assert r.up == n.up + [ack];
      AppendOrders(n.up, [ack], NumberLe);
    }
  }

  lemma DeliverIdling(c: Ctx, s: NodeId, n: Node)
    requires Core(c, s, n) && n.down != []
    ensures Idling(DeliverTo(c, n))
  {
    FirstDown(c, s, n);
    hide Ordered, Numbered, DownOk, UpOk, ServerOk, DownMsgOk;
    HandledIdling(c, n);
  }

  lemma HandledIdling(c: Ctx, n: Node)
    requires Idling(n) && n.down != [] && n.server.Valid() && (n.down[0].msg.WriteBlock? || IsRequest(n.down[0].msg))
    ensures Idling(DeliverTo(c, n))
  {
    assert n.down[0] in n.down;
    assert forall j | 0 < j < |n.down| :: AbortFirst(n.down[0], n.down[j]);
  }

  lemma FloorBound(c: Ctx, s: NodeId)
    requires PhaseInv(c) && s in c.client.serverIds
    ensures Floor(c, s) + (if Deciding(c) && c.phase != Some(COMMIT_OP) then 2 else 1) >= c.epoch
  {
    hide History, OnlyDecision;
  }

  /** A message of a decision under way repeats the last one handled or belongs to the
      decision under way. */
  lemma DecisionIsRepeatedOrCurrent(c: Ctx, s: NodeId, n: Node, t: Tagged)
    requires PhaseInv(c) && Ordered(c, s, n) && Numbered(c, s, n) && DownOk(c, n) && t in n.down
    requires OpOf(t.msg).Some? && t.epoch % 2 == 1
    ensures t.epoch == n.seen || (t.epoch == c.epoch && Before(c, n, OpOf(t.msg).value))
    ensures t.epoch == n.seen ==> LastHandled(c, n, OpOf(t.msg).value)
    ensures Deciding(c) && c.decided[|c.decided| - 1] == OpOf(t.msg).value ==> t.epoch == c.epoch
  {
    assert DownMsgOk(c, t) && Heard(c, s) <= t.phase && s in c.client.serverIds;
    assert Floor(c, s) <= n.seen <= t.epoch <= c.epoch;
    FloorBound(c, s);
    hide Ordered, Numbered, DownOk, DownMsgOk, History, Floor, HeardSince;
    DecisionEpoch(c, s, n, t);
  }

  lemma DecisionEpoch(c: Ctx, s: NodeId, n: Node, t: Tagged)
    requires OnlyDecision(c) && Fitting(c) && OpOf(t.msg).Some? && TagOk(c, t) && t.epoch % 2 == 1
    requires s in c.client.serverIds && Heard(c, s) <= t.phase && n.seen <= t.epoch <= c.epoch
    requires c.epoch <= n.seen + (if Deciding(c) && c.phase != Some(COMMIT_OP) then 2 else 1)
    ensures t.epoch == n.seen || (t.epoch == c.epoch && Before(c, n, OpOf(t.msg).value))
    ensures t.epoch == n.seen ==> LastHandled(c, n, OpOf(t.msg).value)
    ensures Deciding(c) && c.decided[|c.decided| - 1] == OpOf(t.msg).value ==> t.epoch == c.epoch
  {
    hide HeardSince, OpOf;
  }

  lemma GatherIsEven(c: Ctx, t: Tagged)
    requires DownMsgOk(c, t) && (t.msg.WriteBlock? || t.msg.Vote? || t.msg.Close?)
    ensures t.epoch % 2 == 0
  {
  }

  lemma DeliverInGather(c: Ctx, s: NodeId, n: Node)
    requires NodeInv(c, s, n) && n.down != [] && c.client.Valid()
    requires var m := n.down[0].msg; m.WriteBlock? || m.Vote? || m.Close?
    ensures ServerOk(c, DeliverTo(c, n))
    ensures n.server.nextUpdateId <= DeliverTo(c, n).server.nextUpdateId
    ensures n.down[0].msg.Close? || n.down[0].msg.Vote? ==> DeliverTo(c, n).server.updateMap == n.server.updateMap
  {
    hide *;
    var t := n.down[0];
    ClosingPart(c, s, n);
    CoreParts(c, s, n);
    FirstDown(c, s, n);
    GatherIsEven(c, t);
    DeliverOrdered(c, s, n);
    GatherHandled(c, n);
  }

  lemma GatherHandled(c: Ctx, n: Node)
    requires ServerOk(c, n) && n.down != [] && DownMsgOk(c, n.down[0]) && c.client.Valid()
    requires n.seen <= n.down[0].epoch <= c.epoch && n.down[0].epoch % 2 == 0 && DeliverTo(c, n).seen == n.down[0].epoch
    requires var m := n.down[0].msg; m.WriteBlock? || m.Vote? || m.Close?
    ensures ServerOk(c, DeliverTo(c, n))
    ensures n.server.nextUpdateId <= DeliverTo(c, n).server.nextUpdateId
    ensures n.down[0].msg.Close? || n.down[0].msg.Vote? ==> DeliverTo(c, n).server.updateMap == n.server.updateMap
  {
    if n.down[0].msg.Vote? {
      VoteHandled(c, n);
    } else if n.down[0].msg.WriteBlock? {
      BlockHandled(c, n);
    } else {
      assert Applied(c, DeliverTo(c, n)) == Applied(c, n);
    }
  }

  lemma VoteHandled(c: Ctx, n: Node)
    requires ServerOk(c, n) && n.down != [] && DownMsgOk(c, n.down[0]) && c.client.Valid() && n.down[0].msg.Vote?
    requires n.seen <= n.down[0].epoch <= c.epoch && n.down[0].epoch % 2 == 0 && DeliverTo(c, n).seen == n.down[0].epoch
    ensures ServerOk(c, DeliverTo(c, n)) && n.server.nextUpdateId <= DeliverTo(c, n).server.nextUpdateId
    ensures DeliverTo(c, n).server.updateMap == n.server.updateMap
  {
    var t, r := n.down[0], DeliverTo(c, n);
    assert Applied(c, r) == Applied(c, n);
    if Before(c, n, COMMIT_OP) {
      assert IsFirstMissing(n.server.updateMap, c.client.updateId);
      ResumedScanIsScanFromScratch(n.server.updateMap, n.server.nextUpdateId);
    }
    hide DownMsgOk, DiskAfter;
  }

  lemma BlockHandled(c: Ctx, n: Node)
    requires ServerOk(c, n) && n.down != [] && DownMsgOk(c, n.down[0]) && c.client.Valid() && n.down[0].msg.WriteBlock?
    requires n.seen <= n.down[0].epoch <= c.epoch && n.down[0].epoch % 2 == 0 && DeliverTo(c, n).seen == n.down[0].epoch
    ensures ServerOk(c, DeliverTo(c, n)) && n.server.nextUpdateId == DeliverTo(c, n).server.nextUpdateId
  {
    assert Applied(c, DeliverTo(c, n)) == Applied(c, n);
    hide DiskAfter;
  }

  lemma CommitOnClean(sv: Server, fd: nat)
    requires sv.Clean() && sv.fileName in sv.disk
    ensures ServerStep(sv, Commit(fd)).server == sv.(fileOpen := true)
  {
    assert UpdateList(sv.updateMap, sv.nextUpdateId) == [];
    assert sv.disk[sv.fileName := sv.disk[sv.fileName]] == sv.disk;
  }

  /** The first COMMIT of a transaction takes the disk from one log to the next. */
  lemma CommitOnComplete(c: Ctx, n: Node, fd: nat)
    requires ClientInv(c) && ServerOk(c, n) && Before(c, n, COMMIT_OP) && c.phase == Some(COMMIT_OP)
    ensures ServerStep(n.server, Commit(fd)).server == Server(DiskAfter(c.log), c.fileName, map[], 0, true)
  {
    assert n.server.fileName == c.fileName;
    assert c.log[|c.log| - 1] == Txn(c.fileName, UpdateList(n.server.updateMap, n.server.nextUpdateId));
    assert n.server.disk == DiskAfter(c.log[..|c.log| - 1]);
  }

  /** A COMMIT under way is the running phase. */
  lemma CommitRuns(c: Ctx, n: Node)
    requires PhaseInv(c) && Before(c, n, COMMIT_OP)
    ensures c.phase == Some(COMMIT_OP)
  {
    hide History, OnlyDecision, HeardSince;
  }

  lemma CommitHandled(c: Ctx, s: NodeId, n: Node)
    requires ClientInv(c) && ServerOk(c, n) && n.down != [] && n.down[0].msg.Commit?
    requires DeliverTo(c, n).seen == n.down[0].epoch
    requires if n.down[0].epoch == n.seen then LastHandled(c, n, COMMIT_OP)
             else n.down[0].epoch == c.epoch && Before(c, n, COMMIT_OP) && c.phase == Some(COMMIT_OP)
    ensures ServerOk(c, DeliverTo(c, n))
  {
    var t, r := n.down[0], DeliverTo(c, n);
    if t.epoch == n.seen {
      CommitOnClean(n.server, t.msg.fileId);
      assert Applied(c, r) == Applied(c, n);
    } else {
      CommitOnComplete(c, n, t.msg.fileId);
      assert Applied(c, r) == c.log;
      CommittedFileExists(c.log);
    }
  }

  lemma DeliverCommit(c: Ctx, s: NodeId, n: Node)
    requires CtxInv(c) && NodeInv(c, s, n) && n.down != [] && n.down[0].msg.Commit?
    ensures ServerOk(c, DeliverTo(c, n))
  {
    hide *;
    var t := n.down[0];
    CtxParts(c);
    ClosingPart(c, s, n);
    CoreParts(c, s, n);
    FirstDown(c, s, n);
    DeliverOrdered(c, s, n);
    CommitIsOdd(c, t);
    FirstIsOn(n.down);
    DecisionOp(t);
    CommitIsDecision(t);
    DecisionIsRepeatedOrCurrent(c, s, n, t);
    if t.epoch != n.seen {
      CommitRuns(c, n);
    }
    CommitHandled(c, s, n);
  }

  lemma CtxParts(c: Ctx)
    requires CtxInv(c)
    ensures PhaseInv(c) && ClientInv(c)
  {
  }

  lemma CommitIsDecision(t: Tagged)
    requires t.msg.Commit?
    ensures OpOf(t.msg) == Some(COMMIT_OP)
  {
  }

  lemma CommittedFileExists(log: seq<Txn>)
    requires log != []
    ensures log[|log| - 1].name in DiskAfter(log)
  {
  }

  lemma AbortOrOpenHandled(c: Ctx, s: NodeId, n: Node)
    requires ServerOk(c, n) && n.down != [] && (n.down[0].msg.Abort? || n.down[0].msg.OpenFile?)
    requires DeliverTo(c, n).seen == n.down[0].epoch && DownMsgOk(c, n.down[0]) && n.down[0].epoch % 2 == 1
    requires var op, t := OpOf(n.down[0].msg).value, n.down[0];
             if t.epoch == n.seen then LastHandled(c, n, op) else t.epoch == c.epoch && Before(c, n, op)
    requires Deciding(c) && c.decided != [] && Some(c.decided[|c.decided| - 1]) == OpOf(n.down[0].msg) ==>
               n.down[0].epoch == c.epoch
    ensures ServerOk(c, DeliverTo(c, n))
  {
    var t, r := n.down[0], DeliverTo(c, n);
    hide NotStale, DiskAfter;
    assert !Before(c, r, COMMIT_OP) ==> Applied(c, r) == c.log;
  }

  lemma DeliverAbortOrOpen(c: Ctx, s: NodeId, n: Node)
    requires PhaseInv(c) && NodeInv(c, s, n) && n.down != [] && n.down[0].epoch % 2 == 1
    requires n.down[0].msg.Abort? || n.down[0].msg.OpenFile?
    ensures ServerOk(c, DeliverTo(c, n))
  {
    var t := n.down[0];
    FirstDown(c, s, n);
    DeliverOrdered(c, s, n);
    assert t in n.down;
    DecisionIsRepeatedOrCurrent(c, s, n, t);
    hide DeliverTo, ServerOk, PhaseInv, LastHandled, Before, Ordered, Numbered, DownOk, UpOk, Idling, Recorded, Closing,
         Increasing, DownMsgOk;
    AbortOrOpenHandled(c, s, n);
  }

  /** An OPEN or ABORT that is no decision changes nothing on the server. */
  lemma DeliverIdle(c: Ctx, s: NodeId, n: Node)
    requires PhaseInv(c) && NodeInv(c, s, n) && n.down != [] && n.down[0].epoch % 2 == 0
    requires n.down[0].msg.Abort? || n.down[0].msg.OpenFile?
    ensures var sv := DeliverTo(c, n).server;
            sv.updateMap == n.server.updateMap && sv.nextUpdateId == n.server.nextUpdateId && sv.disk == n.server.disk
    ensures ServerOk(c, DeliverTo(c, n))
  {
    var t, r := n.down[0], DeliverTo(c, n);
    assert t in n.down && DownMsgOk(c, t);
    assert r.seen == t.epoch by { DeliverOrdered(c, s, n); }
    if t.msg.Abort? {
      assert n.server.updateMap == map[] && n.server.nextUpdateId == 0 by {
        assert IdleAbort(t);
        assert n.server.nextUpdateId > 0 ==> 0 in n.server.updateMap;
      }
    } else {
      NotOpening(c, s, n, t);
    }
    hide PhaseInv, Core, Recorded, Closing, Increasing;
    assert ServerOk(c, n) && n.seen <= t.epoch <= c.epoch by { FirstDown(c, s, n); }
    IdleHandled(c, n);
  }

  lemma IdleHandled(c: Ctx, n: Node)
    requires ServerOk(c, n) && n.down != [] && n.seen <= n.down[0].epoch <= c.epoch && DownMsgOk(c, n.down[0])
    requires DeliverTo(c, n).seen == n.down[0].epoch && n.down[0].epoch % 2 == 0
    requires n.down[0].msg.Abort? || (n.down[0].msg.OpenFile? && !Before(c, n, OPEN_OP))
    requires n.down[0].msg.Abort? ==> n.server.updateMap == map[] && n.server.nextUpdateId == 0
    ensures ServerOk(c, DeliverTo(c, n))
    ensures var sv := DeliverTo(c, n).server;
            sv.updateMap == n.server.updateMap && sv.nextUpdateId == n.server.nextUpdateId && sv.disk == n.server.disk
  {
    hide NotStale, TagOk, DiskAfter;
    assert Before(c, DeliverTo(c, n), COMMIT_OP) <==> Before(c, n, COMMIT_OP);
  }

  lemma NotOpening(c: Ctx, s: NodeId, n: Node, t: Tagged)
    requires PhaseInv(c) && Ordered(c, s, n) && Numbered(c, s, n) && DownOk(c, n) && t in n.down
    requires t.msg.OpenFile? && t.epoch % 2 == 0
    ensures !Before(c, n, OPEN_OP)
  {
    assert DownMsgOk(c, t);
    hide History, Pairwise;
  }

  lemma DeliverServer(c: Ctx, s: NodeId, n: Node)
    requires CtxInv(c) && NodeInv(c, s, n) && n.down != []
    ensures ServerOk(c, DeliverTo(c, n))
    ensures n.down[0].epoch % 2 == 0 ==> n.server.nextUpdateId <= DeliverTo(c, n).server.nextUpdateId
  {
    var t := n.down[0];
    assert t in n.down && DownMsgOk(c, t);
    if t.msg.Commit? {
      DeliverCommit(c, s, n);
    } else if t.msg.Abort? || t.msg.OpenFile? {
      if t.epoch % 2 == 0 {
        DeliverIdle(c, s, n);
      } else {
        DeliverAbortOrOpen(c, s, n);
      }
    } else {
      DeliverInGather(c, s, n);
    }
    hide NodeInv, CtxInv, ServerOk, DeliverTo, DownMsgOk;
    assert t.msg.Commit? ==> t.epoch % 2 == 1 by { CommitIsOdd(c, t); }
  }

  lemma CommitIsOdd(c: Ctx, t: Tagged)
    requires DownMsgOk(c, t)
    ensures t.msg.Commit? ==> t.epoch % 2 == 1
  {
  }

  /** The reply to a request is an acknowledgement of the same phase. */
  lemma ReplyShape(sv: Server, m: Message)
    requires sv.Valid() && (m.WriteBlock? || IsRequest(m))
    ensures var r := ServerStep(sv, m);
            && (r.reply.None? <==> m.WriteBlock?)
            && (r.reply.Some? ==> IsAck(r.reply.value) && OpOf(r.reply.value) == OpOf(m))
            && (r.reply.Some? ==> r.reply.value.fileDesc == 0 || (r.reply.value.fileDesc == 1 && m.Close?))
            && (m.Vote? ==> r.reply.value.updateId == r.server.nextUpdateId)
  {
  }

  lemma DeliverReply(c: Ctx, s: NodeId, n: Node)
    requires Core(c, s, n) && n.down != []
    ensures var r := DeliverTo(c, n);
            forall u | u in r.up && u !in n.up :: UpMsgOk(c, r.server, u) && u.epoch == n.down[0].epoch
  {
    var t, r := n.down[0], DeliverTo(c, n);
    FirstDown(c, s, n);
    ReplyShape(n.server, t.msg);
    if !t.msg.WriteBlock? {
      var reply := ServerStep(n.server, t.msg).reply.value;
      hide ServerStep, Core;
      assert UpMsgOk(c, r.server, Tagged(reply, t.epoch, t.phase));
      assert r.up == n.up + [Tagged(reply, t.epoch, t.phase)];
    }
  }

  /** Older answers stay below the counter: it falls only with the epoch. */
  lemma DeliverUp(c: Ctx, s: NodeId, n: Node)
    requires Core(c, s, n) && n.down != []
    requires n.down[0].epoch % 2 == 0 ==> n.server.nextUpdateId <= DeliverTo(c, n).server.nextUpdateId
    ensures UpOk(c, DeliverTo(c, n))
  {
    hide *;
    CoreParts(c, s, n);
    FirstDown(c, s, n);
    DeliverReply(c, s, n);
    var r := DeliverTo(c, n);
    forall u | u in r.up && u in n.up
      ensures UpMsgOk(c, r.server, u)
    {
      OlderAnswerOk(c, s, n, u, r.server);
    }
    AllUpOk(c, r);
  }

  lemma OlderAnswerOk(c: Ctx, s: NodeId, n: Node, u: Tagged, sv: Server)
    requires Ordered(c, s, n) && UpOk(c, n) && u in n.up && n.down != [] && n.seen <= n.down[0].epoch <= c.epoch
    requires n.down[0].epoch % 2 == 0 ==> n.server.nextUpdateId <= sv.nextUpdateId
    ensures UpMsgOk(c, sv, u)
  {
    assert UpMsgOk(c, n.server, u) && u.epoch <= n.seen;
    hide NotStale, Pairwise;
  }

  lemma AllUpOk(c: Ctx, n: Node)
    requires forall u | u in n.up :: UpMsgOk(c, n.server, u)
    ensures UpOk(c, n)
  {
    hide UpMsgOk;
  }

  /** A server whose vote is on record has handled messages of this epoch only since. */
  lemma VotersAreCurrent(c: Ctx, s: NodeId, n: Node)
    requires CtxInv(c) && Ordered(c, s, n) && c.phase == Some(VOTE_OP) && s in c.client.recvServerUpdateId
    requires n.down != []
    ensures n.down[0].epoch == c.epoch && c.epoch % 2 == 0
  {
    VoteIsEven(c);
    hide PhaseInv, CallInv, Pairwise;
    assert n.down[0] in n.down;
    assert !c.second && !Idle(c);
  }

  lemma DeliverRecorded(c: Ctx, s: NodeId, n: Node)
    requires CtxInv(c) && Core(c, s, n) && Recorded(c, s, n) && n.down != []
    requires n.down[0].epoch % 2 == 0 ==> n.server.nextUpdateId <= DeliverTo(c, n).server.nextUpdateId
    ensures Recorded(c, s, DeliverTo(c, n))
  {
    if c.phase == Some(VOTE_OP) && s in c.client.recvServerUpdateId {
      VotersAreCurrent(c, s, n);
    }
    hide DeliverTo, ServerStep, CtxInv, Core;
  }

  /** In an even epoch, a VOTE or CLOSE message on a link belongs to that epoch. */
  lemma GatherIsCurrent(c: Ctx, s: NodeId, n: Node, t: Tagged)
    requires PhaseInv(c) && Ordered(c, s, n) && DownOk(c, n) && UpOk(c, n) && !Deciding(c)
    requires (t in n.up || t in n.down) && (OpOf(t.msg) == Some(CLOSE_OP) || OpOf(t.msg) == Some(VOTE_OP))
    ensures TagOk(c, t) && t.epoch == c.epoch
    ensures t in n.up ==> n.seen == c.epoch
  {
    hide *;
    OnOwnLink(c, s, n);
    FloorBound(c, s);
    OnLink(c, s, n, t);
    EvenEpoch(c, t);
  }

  lemma OnOwnLink(c: Ctx, s: NodeId, n: Node)
    requires Ordered(c, s, n)
    ensures s in c.client.serverIds
  {
  }

  lemma EvenEpoch(c: Ctx, t: Tagged)
    requires OpOf(t.msg) == Some(CLOSE_OP) || OpOf(t.msg) == Some(VOTE_OP)
    requires TagOk(c, t) && t.epoch <= c.epoch && !Deciding(c)
    ensures t.epoch == c.epoch || t.epoch + 1 < c.epoch
  {
  }

  lemma OnLink(c: Ctx, s: NodeId, n: Node, t: Tagged)
    requires Ordered(c, s, n) && DownOk(c, n) && UpOk(c, n) && (t in n.up || t in n.down) && OpOf(t.msg).Some?
    ensures Floor(c, s) <= t.epoch <= c.epoch && (t in n.up ==> t.epoch <= n.seen <= c.epoch) && TagOk(c, t)
  {
    if t in n.up {
      assert UpMsgOk(c, n.server, t);
    } else {
      assert DownMsgOk(c, t);
    }
    hide TagOk, Pairwise, NotStale;
  }

  /** A CLOSE sent before the latest block and still to be answered makes CLOSE unsafe. */
  lemma OldCloseIsUnsafe(c: Ctx, s: NodeId, n: Node, t: Tagged)
    requires Numbered(c, s, n) && DownOk(c, n) && UpOk(c, n) && (t in n.up || t in n.down)
    requires OpOf(t.msg) == Some(CLOSE_OP) && t.phase <= c.wrote
    ensures !CloseFresh(c, s)
  {
    assert t in n.up ==> UpMsgOk(c, n.server, t);
    assert t in n.down ==> DownMsgOk(c, t);
    assert c.phases[t.phase].op == CLOSE_OP && Heard(c, s) <= t.phase;
  }

  lemma DeliverClosing(c: Ctx, s: NodeId, n: Node)
    requires PhaseInv(c) && NodeInv(c, s, n) && n.down != []
    ensures Closing(c, s, DeliverTo(c, n))
  {
    hide *;
    ClosingPart(c, s, n);
    FirstDown(c, s, n);
    if !Calm(c) {
      NotCalm(c, s, DeliverTo(c, n));
    } else if n.down[0].msg.Close? {
      DeliverClose(c, s, n);
    } else if n.down[0].msg.WriteBlock? {
      DeliverWriteClosing(c, s, n);
    } else if n.down[0].msg.Vote? {
      DeliverVoteClosing(c, s, n);
    } else {
      DeliverDecisionClosing(c, s, n);
    }
  }

  lemma ClosingPart(c: Ctx, s: NodeId, n: Node)
    requires NodeInv(c, s, n)
    ensures Core(c, s, n) && Closing(c, s, n)
  {
  }

  lemma NotCalm(c: Ctx, s: NodeId, n: Node)
    requires !Calm(c)
    ensures Closing(c, s, n)
  {
  }

  lemma DeliverClose(c: Ctx, s: NodeId, n: Node)
    requires PhaseInv(c) && Core(c, s, n) && Closing(c, s, n) && n.down != [] && n.down[0].msg.Close? && Calm(c)
    ensures Closing(c, s, DeliverTo(c, n))
  {
    var t := n.down[0];
    assert t in n.down && n.server.Valid();
    GatherIsCurrent(c, s, n, t);
    if t.phase <= c.wrote {
      OldCloseIsUnsafe(c, s, n, t);
    }
    assert n.seen <= t.epoch;
    hide Core, PhaseInv, CloseFresh;
    CloseHandled(c, s, n);
  }

  lemma CloseHandled(c: Ctx, s: NodeId, n: Node)
    requires n.server.Valid() && Closing(c, s, n) && n.down != [] && n.down[0].msg.Close? && Calm(c)
    requires n.seen <= n.down[0].epoch == c.epoch && (n.down[0].phase <= c.wrote ==> !CloseFresh(c, s))
    ensures Closing(c, s, DeliverTo(c, n))
  {
    assert forall j | 0 < j < |n.down| :: CloseLast(c.wrote)(n.down[0], n.down[j]);
    hide CloseFresh;
  }

  lemma DeliverWriteClosing(c: Ctx, s: NodeId, n: Node)
    requires Core(c, s, n) && Closing(c, s, n) && n.down != [] && n.down[0].msg.WriteBlock? && Calm(c)
    ensures Closing(c, s, DeliverTo(c, n))
  {
    hide DownOk, UpOk, Ordered, Numbered, Idling, CloseFresh;
    assert n.down[0] in n.down;
  }

  lemma DeliverVoteClosing(c: Ctx, s: NodeId, n: Node)
    requires Core(c, s, n) && Closing(c, s, n) && n.down != [] && n.down[0].msg.Vote? && Calm(c)
    ensures Closing(c, s, DeliverTo(c, n))
  {
    hide DownOk, UpOk, Numbered, Idling, CloseFresh;
    assert n.down[0] in n.down;
  }

  lemma NoCloseAckBefore(c: Ctx, s: NodeId, n: Node)
    requires PhaseInv(c) && Ordered(c, s, n) && DownOk(c, n) && UpOk(c, n) && !Deciding(c) && n.seen < c.epoch
    ensures forall t | t in n.up :: !t.msg.CloseAck?
  {
    forall t | t in n.up
      ensures !t.msg.CloseAck?
    {
      if t.msg.CloseAck? {
        GatherIsCurrent(c, s, n, t);
      }
    }
  }

  /** A decision repeated between decisions reaches a server that has answered no CLOSE. */
  lemma DeliverDecisionClosing(c: Ctx, s: NodeId, n: Node)
    requires PhaseInv(c) && NodeInv(c, s, n) && n.down != [] && Calm(c)
    requires var m := n.down[0].msg; m.OpenFile? || m.Commit? || m.Abort?
    ensures Closing(c, s, DeliverTo(c, n))
  {
    hide *;
    var t := n.down[0];
    ClosingPart(c, s, n);
    FirstDown(c, s, n);
    CoreParts(c, s, n);
    DeliverOrdered(c, s, n);
    CommitIsOdd(c, t);
    FirstIsOn(n.down);
    if t.epoch % 2 == 0 {
      DeliverIdle(c, s, n);
      IdleClosing(c, s, n);
    } else {
      DecisionOp(t);
      DecisionIsRepeatedOrCurrent(c, s, n, t);
      CalmBefore(c, n, OpOf(t.msg).value);
      NoCloseAckBefore(c, s, n);
      RepeatedClosing(c, s, n);
    }
  }

  lemma CoreParts(c: Ctx, s: NodeId, n: Node)
    requires Core(c, s, n)
    ensures Ordered(c, s, n) && Numbered(c, s, n) && DownOk(c, n) && UpOk(c, n) && ServerOk(c, n) && Idling(n)
    ensures n.seen <= c.epoch && n.server.Valid()
  {
  }

  lemma FirstIsOn(q: Queue)
    ensures q != [] ==> q[0] in q
  {
  }

  lemma DecisionOp(t: Tagged)
    ensures t.msg.OpenFile? || t.msg.Commit? || t.msg.Abort? ==> OpOf(t.msg).Some?
  {
  }

  lemma CalmBefore(c: Ctx, n: Node, op: Op)
    requires Calm(c)
    ensures !Before(c, n, op) && !Deciding(c)
    ensures n.seen % 2 == 1 ==> n.seen != c.epoch
    ensures LastHandled(c, n, op) ==> n.seen % 2 == 1
  {
  }

  lemma IdleClosing(c: Ctx, s: NodeId, n: Node)
    requires Closing(c, s, n) && n.down != [] && n.server.Valid() && n.seen <= n.down[0].epoch <= c.epoch
    requires n.down[0].msg.OpenFile? || n.down[0].msg.Abort?
    requires DeliverTo(c, n).server.updateMap == n.server.updateMap
    ensures Closing(c, s, DeliverTo(c, n))
  {
    hide CloseFresh;
    assert forall t | t in DeliverTo(c, n).down :: t in n.down;
  }

  lemma RepeatedClosing(c: Ctx, s: NodeId, n: Node)
    requires Closing(c, s, n) && n.down != [] && n.server.Valid() && n.seen < c.epoch
    requires forall t | t in n.up :: !t.msg.CloseAck?
    requires n.down[0].msg.OpenFile? || n.down[0].msg.Commit? || n.down[0].msg.Abort?
    ensures Closing(c, s, DeliverTo(c, n))
  {
    hide CloseFresh;
    assert forall t | t in DeliverTo(c, n).down :: t in n.down;
  }

  lemma DeliverIncreasing(c: Ctx, s: NodeId, n: Node)
    requires PhaseInv(c) && Core(c, s, n) && Increasing(c, s, n) && Recorded(c, s, n) && n.down != []
    ensures Increasing(c, s, DeliverTo(c, n))
  {
    hide *;
    CoreParts(c, s, n);
    FirstDown(c, s, n);
    if c.phase == Some(VOTE_OP) {
      VoteIsEven(c);
      forall u | u in n.up && u.msg.VoteAck?
        ensures u.msg.updateId <= n.server.nextUpdateId
      {
        VoteAckOp(u.msg);
        GatherIsCurrent(c, s, n, u);
        VoteAckBound(c, n, u);
      }
    }
    AnswerIncreases(c, s, n);
  }

  lemma VoteAckOp(m: Message)
    ensures m.VoteAck? ==> OpOf(m) == Some(VOTE_OP)
  {
  }

  lemma VoteAckBound(c: Ctx, n: Node, u: Tagged)
    requires UpOk(c, n) && u in n.up && u.msg.VoteAck? && u.epoch == c.epoch
    ensures u.msg.updateId <= n.server.nextUpdateId
  {
    assert UpMsgOk(c, n.server, u);
  }

  lemma AnswerIncreases(c: Ctx, s: NodeId, n: Node)
    requires n.down != [] && n.server.Valid() && Increasing(c, s, n) && Recorded(c, s, n)
    requires c.phase == Some(VOTE_OP) ==>
               forall u | u in n.up && u.msg.VoteAck? :: u.msg.updateId <= n.server.nextUpdateId
    ensures Increasing(c, s, DeliverTo(c, n))
  {
    var t, r := n.down[0], DeliverTo(c, n);
    if c.fifo && c.phase == Some(VOTE_OP) && r.up != n.up {
      AppendOrders(n.up, [r.up[|n.up|]], VotesLe);
    }
  }

  lemma VoteIsEven(c: Ctx)
    requires PhaseInv(c)
    ensures c.phase == Some(VOTE_OP) || c.phase == Some(CLOSE_OP) ==> !Deciding(c)
  {
    hide OnlyDecision, HeardSince;
    assert c.phase.Some? ==> EpochOk(c, c.phases[c.begun].op, c.phases[c.begun].epoch);
  }

  lemma DeliverKeeps(c: Ctx, s: NodeId, n: Node)
    requires CtxInv(c) && NodeInv(c, s, n) && n.down != []
    ensures NodeInv(c, s, DeliverTo(c, n))
  {
    DeliverOrdered(c, s, n);
    DeliverNumbered(c, s, n);
    DeliverServer(c, s, n);
    DeliverUp(c, s, n);
    DeliverIdling(c, s, n);
    DeliverRecorded(c, s, n);
    DeliverClosing(c, s, n);
    DeliverIncreasing(c, s, n);
    hide Ordered, Numbered, DownOk, UpOk, ServerOk, Idling, Recorded, Closing, Increasing;
  }
}
