/** The protocol's guarantees, over every run: any number of servers, calls and
    transactions, any loss and duplication, and inside a transaction any reordering. */
module Theorems {
  import opened FileModel
  import opened Messages
  import opened ServerSpec
  import opened ClientSpec
  import opened Network
  import opened Protocol
  import opened Invariant
  import opened Preservation
  import opened Reachability

  /** A state at the end of some run, and the run kept the assumptions. */
  ghost predicate Reached(ids: set<NodeId>, fifo: bool, steps: seq<Step>, st: State) {
    Run(ids, fifo, steps) == Some(st) && !st.ctx.tainted
  }

  lemma ReachedInv(ids: set<NodeId>, fifo: bool, steps: seq<Step>, st: State)
    requires Reached(ids, fifo, steps, st)
    ensures CtxInv(st.ctx) && NodesInv(st.ctx, st.nodes) && Members(st)
  {
    RunInv(ids, fifo, steps);
  }

  /** The server holds exactly the updates the client has cached, and knows it. */
  predicate Complete(c: Ctx, sv: Server) {
    sv.updateMap == c.client.updateMap && sv.nextUpdateId == c.client.updateId
  }

  predicate Committing(c: Ctx) {
    c.phase == Some(COMMIT_OP)
  }

  // ---------------------------------------------------------------- safety of the commit

  predicate NodeSafe(c: Ctx, n: Node) {
    if !Committing(c) then n.server.disk == DiskAfter(c.log)
    else
      || (n.server.disk == DiskAfter(c.log) && n.server.Clean())
      || (c.log != [] && n.server.disk == DiskAfter(c.log[..|c.log| - 1]) && Complete(c, n.server))
  }

  lemma NodeSafety(c: Ctx, n: Node)
    requires PhaseInv(c) && ServerOk(c, n) && n.seen <= c.epoch && (Committing(c) ==> c.log != [])
    ensures NodeSafe(c, n)
  {
    if Before(c, n, COMMIT_OP) {
      CommitRuns(c, n);
    }
    CommitIsUnderWay(c, n);
    hide DiskAfter, PhaseInv;
  }

  lemma CommitIsUnderWay(c: Ctx, n: Node)
    requires PhaseInv(c) && n.seen <= c.epoch
    ensures Committing(c) ==> Before(c, n, COMMIT_OP) || LastHandled(c, n, COMMIT_OP)
  {
    hide OnlyDecision, HeardSince;
    assert c.phase.Some? ==> EpochOk(c, c.phases[c.begun].op, c.phases[c.begun].epoch);
  }

  lemma SafeNodes(c: Ctx, nodes: map<NodeId, Node>)
    requires forall s | s in nodes :: NodeSafe(c, nodes[s])
    ensures !Committing(c) ==> forall s | s in nodes :: nodes[s].server.disk == DiskAfter(c.log)
    ensures Committing(c) && c.log != [] ==>
              forall s | s in nodes ::
                var sv := nodes[s].server;
                || (sv.disk == DiskAfter(c.log) && sv.Clean())
                || (sv.disk == DiskAfter(c.log[..|c.log| - 1]) && Complete(c, sv))
  {
    hide DiskAfter;
  }

  lemma OneNode(c: Ctx, nodes: map<NodeId, Node>, s: NodeId)
    requires NodesInv(c, nodes) && s in nodes
    ensures ServerOk(c, nodes[s]) && nodes[s].seen <= c.epoch
  {
    hide ServerOk, DownOk, UpOk, Recorded, Closing, Increasing;
    assert NodeInv(c, s, nodes[s]);
  }

  lemma CommittingLog(c: Ctx)
    requires CtxInv(c)
    ensures PhaseInv(c) && c.client.Valid()
    ensures Committing(c) ==> c.log != [] && c.log[|c.log| - 1] == CurrentTxn(c)
  {
    hide PhaseInv, CallInv, CurrentTxn;
  }

  lemma AllSafe(c: Ctx, nodes: map<NodeId, Node>)
    requires Good(c, nodes)
    ensures c.client.Valid()
    ensures Committing(c) ==> c.log != [] && c.log[|c.log| - 1] == CurrentTxn(c)
    ensures forall s | s in nodes :: NodeSafe(c, nodes[s])
  {
    hide *;
    GoodMeans(c, nodes);
    CommittingLog(c);
    forall s | s in nodes
      ensures NodeSafe(c, nodes[s])
    {
      OneNode(c, nodes, s);
      NodeSafety(c, nodes[s]);
    }
  }

  /** Two-phase safety. Outside a COMMIT phase all disks show the whole log. In one, each
      server has applied the transaction and is clean, or has not and is complete. */
  lemma TwoPhaseSafety(ids: set<NodeId>, fifo: bool, steps: seq<Step>, st: State)
    requires Reached(ids, fifo, steps, st)
    ensures !Committing(st.ctx) ==> forall s | s in st.nodes :: st.nodes[s].server.disk == DiskAfter(st.ctx.log)
    ensures Committing(st.ctx) ==>
              && st.ctx.log != [] && st.ctx.log[|st.ctx.log| - 1] == CurrentTxn(st.ctx)
              && forall s | s in st.nodes ::
                   var sv := st.nodes[s].server;
                   || (sv.disk == DiskAfter(st.ctx.log) && sv.Clean())
                   || (sv.disk == DiskAfter(st.ctx.log[..|st.ctx.log| - 1]) && Complete(st.ctx, sv))
  {
    hide *;
    ReachedMeans(ids, fifo, steps, st);
    AllSafe(st.ctx, st.nodes);
    SafeNodes(st.ctx, st.nodes);
  }

  lemma DeliverChangesDisk(c: Ctx, s: NodeId, n: Node)
    requires CtxInv(c) && NodeInv(c, s, n) && n.down != [] && DeliverTo(c, n).server.disk != n.server.disk
    ensures n.down[0].msg.Commit? && Before(c, n, COMMIT_OP) && c.phase == Some(COMMIT_OP)
  {
    hide *;
    var t := n.down[0];
    CtxPieces(c);
    ClosingPart(c, s, n);
    CoreParts(c, s, n);
    FirstDown(c, s, n);
    CommitIsOdd(c, t);
    FirstIsOn(n.down);
    OnlyCommitMoves(c, n);
    DecisionOp(t);
    DecisionIsRepeatedOrCurrent(c, s, n, t);
    if t.epoch == n.seen {
      RepeatedCommit(c, n);
    } else {
      CommitRuns(c, n) by { CommitOp(t); }
    }
    CommitOp(t);
  }

  lemma CommitOp(t: Tagged)
    ensures t.msg.Commit? ==> OpOf(t.msg) == Some(COMMIT_OP)
  {
  }

  lemma OnlyCommitMoves(c: Ctx, n: Node)
    requires n.down != [] && n.server.Valid() && DeliverTo(c, n).server.disk != n.server.disk
    ensures n.down[0].msg.Commit?
  {
  }

  lemma RepeatedCommit(c: Ctx, n: Node)
    requires n.down != [] && ServerOk(c, n) && n.down[0].msg.Commit?
    ensures LastHandled(c, n, OpOf(n.down[0].msg).value) ==> DeliverTo(c, n).server.disk == n.server.disk
  {
    if LastHandled(c, n, COMMIT_OP) {
      CommitOnClean(n.server, n.down[0].msg.fileId);
    }
  }

  lemma OnlyDeliveryChangesServers(st: State, step: Step, s: NodeId)
    requires Sane(st) && Enabled(st, step) && s in st.nodes
    ensures step != Deliver(s) ==> Do(st, step).nodes[s].server == st.nodes[s].server
    ensures step == Deliver(s) ==> Do(st, step).nodes[s] == DeliverTo(st.ctx, st.nodes[s])
  {
    hide React, Leave, DeliverTo;
  }

  /** No byte of any file changes before every server is complete: a step that changes a
      disk is the first COMMIT of the transaction at one server, while every server holds
      all of the client's updates or has applied them already. */
  lemma NoFileChangesBeforeAllComplete(ids: set<NodeId>, fifo: bool, steps: seq<Step>, st: State, step: Step, s: NodeId)
    requires Reached(ids, fifo, steps, st) && Enabled(st, step) && s in st.nodes
    requires Do(st, step).nodes[s].server.disk != st.nodes[s].server.disk
    ensures step == Deliver(s) && st.nodes[s].down[0].msg.Commit? && Committing(st.ctx)
    ensures Complete(st.ctx, st.nodes[s].server)
    ensures forall r | r in st.nodes ::
              Complete(st.ctx, st.nodes[r].server) || st.nodes[r].server.disk == DiskAfter(st.ctx.log)
    ensures Do(st, step).nodes[s].server.disk == DiskAfter(st.ctx.log)
  {
    OnlyDeliveryChangesServers(st, step, s);
    ReachedInv(ids, fifo, steps, st);
    var c, n := st.ctx, st.nodes[s];
    assert NodeInv(c, s, n);
    DeliverChangesDisk(c, s, n);
    CommitOnComplete(c, n, n.down[0].msg.fileId);
    TwoPhaseSafety(ids, fifo, steps, st);
    assert Do(st, step).nodes[s].server == ServerStep(n.server, n.down[0].msg).server;
  }

  /** Replica agreement. Every file of every server is the fold of the transactions the
      client decided, or of all but the last; once `Commit` has returned normally, all
      disks equal the fold whose last transaction is exactly what the client had cached
      when `Commit` was called, on top of their common earlier contents. */
  lemma ReplicaAgreement(ids: set<NodeId>, fifo: bool, steps: seq<Step>, st: State)
    requires Reached(ids, fifo, steps, st)
    ensures forall s | s in st.nodes ::
              var disk := st.nodes[s].server.disk;
              disk == DiskAfter(st.ctx.log) || (st.ctx.log != [] && disk == DiskAfter(st.ctx.log[..|st.ctx.log| - 1]))
    ensures st.ctx.returned == Returned(COMMIT_OP, true) ==>
              && |st.ctx.log| == st.ctx.callLog + 1
              && forall s | s in st.nodes ::
                   st.nodes[s].server.disk ==
                     CommitTo(DiskAfter(st.ctx.log[..st.ctx.callLog]), st.ctx.callTxn.name, st.ctx.callTxn.updates)
  {
    ReachedInv(ids, fifo, steps, st);
    TwoPhaseSafety(ids, fifo, steps, st);
    hide *;
    CommitReturned(st.ctx);
    assert Committing(st.ctx) || !Committing(st.ctx);
  }

  lemma CommitReturned(c: Ctx)
    requires CtxInv(c)
    ensures c.returned == Returned(COMMIT_OP, true) ==>
              && !Committing(c) && |c.log| == c.callLog + 1
              && DiskAfter(c.log) == CommitTo(DiskAfter(c.log[..c.callLog]), c.callTxn.name, c.callTxn.updates)
  {
    hide PhaseInv, ClientInv, CommitTo;
    assert c.client.Valid() by { CommittingLog(c); }
  }

  /** ... and byte by byte: the committed file is the last-writer-wins file over its own
      previous contents, and every other file is what it was. */
  lemma CommittedFile(ids: set<NodeId>, fifo: bool, steps: seq<Step>, st: State, s: NodeId)
    requires Reached(ids, fifo, steps, st) && st.ctx.returned == Returned(COMMIT_OP, true) && s in st.nodes
    requires |st.ctx.log| == st.ctx.callLog + 1
    ensures var before := DiskAfter(st.ctx.log[..st.ctx.callLog]);
            var txn, disk := st.ctx.callTxn, st.nodes[s].server.disk;
            && disk.Keys == before.Keys + {txn.name}
            && LastWriterWins(if txn.name in before then before[txn.name] else [], txn.updates, disk[txn.name])
            && forall f | f in before && f != txn.name :: disk[f] == before[f]
  {
    ReplicaAgreement(ids, fifo, steps, st);
    var before := DiskAfter(st.ctx.log[..st.ctx.callLog]);
    var name := st.ctx.callTxn.name;
    ReplayIsLastWriterWins(if name in before then before[name] else [], st.ctx.callTxn.updates);
  }

  /** Clean boundaries. Whenever nothing is cached between two phases, in particular once
      Commit or Abort has returned normally, no server keeps a trace of an earlier
      transaction; and at all times what a server holds is the client's own block for that
      id, so keeping the first block that arrives is harmless. */
  lemma CleanBoundaries(ids: set<NodeId>, fifo: bool, steps: seq<Step>, st: State)
    requires Reached(ids, fifo, steps, st)
    ensures forall s | s in st.nodes :: Submap(st.nodes[s].server.updateMap, st.ctx.client.updateMap)
    ensures st.ctx.returned == Returned(COMMIT_OP, true) || st.ctx.returned == Returned(ABORT_OP, true) ==>
              st.ctx.phase.None? && st.ctx.client.updateId == 0
    ensures st.ctx.phase.None? && st.ctx.client.updateId == 0 ==>
              && st.ctx.client == st.ctx.client.Reset()
              && forall s | s in st.nodes :: st.nodes[s].server.Clean()
  {
    hide *;
    ReachedMeans(ids, fifo, steps, st);
    GoodMeans(st.ctx, st.nodes);
    BoundaryCtx(st.ctx);
    forall s | s in st.nodes
      ensures Submap(st.nodes[s].server.updateMap, st.ctx.client.updateMap)
      ensures st.ctx.client.updateId == 0 ==> st.nodes[s].server.Clean()
    {
      NodeOf(st.ctx, st.nodes, s);
      BoundaryNode(st.ctx, s, st.nodes[s]);
    }
  }

  lemma BoundaryCtx(c: Ctx)
    requires CtxInv(c)
    ensures c.client.Valid()
    ensures c.returned == Returned(COMMIT_OP, true) || c.returned == Returned(ABORT_OP, true) ==>
              c.phase.None? && c.client.updateId == 0
    ensures c.phase.None? && c.client.updateId == 0 ==> c.client == c.client.Reset()
  {
    hide PhaseInv;
    assert c.client.updateId == 0 ==> c.client.updateMap == map[];
  }

  lemma BoundaryNode(c: Ctx, s: NodeId, n: Node)
    requires NodeInv(c, s, n) && c.client.Valid()
    ensures Submap(n.server.updateMap, c.client.updateMap) && (c.client.updateId == 0 ==> n.server.Clean())
  {
    ClosingPart(c, s, n);
    CoreParts(c, s, n);
    if c.client.updateId == 0 {
      NothingToFind(c, s, n);
    }
    hide NodeInv, Core, Ordered, Numbered, DownOk, UpOk, Idling;
  }

  lemma NodeOf(c: Ctx, nodes: map<NodeId, Node>, s: NodeId)
    requires NodesInv(c, nodes) && s in nodes
    ensures NodeInv(c, s, nodes[s]) && s in c.client.serverIds
  {
    hide Numbered, DownOk, UpOk, ServerOk, Idling, Recorded, Closing, Increasing;
  }

  /** Lookup safety, in every state of every run, tainted or not: the ids the client looks
      up when it sends blocks again, and those a server looks up when it replays, exist. */
  lemma LookupsSucceed(ids: set<NodeId>, fifo: bool, steps: seq<Step>, st: State)
    requires Run(ids, fifo, steps) == Some(st)
    ensures forall i: nat :: i in st.ctx.client.updateMap <==> i < st.ctx.client.updateId
    ensures forall s, i: nat | s in st.nodes && i < st.nodes[s].server.nextUpdateId :: i in st.nodes[s].server.updateMap
    ensures !st.ctx.tainted ==> forall s | s in st.nodes ::
              st.nodes[s].server.nextUpdateId <= st.ctx.client.updateId <= MAX_UINT32
  {
    if !st.ctx.tainted {
      ReachedInv(ids, fifo, steps, st);
      forall s | s in st.nodes
        ensures st.nodes[s].server.nextUpdateId <= st.ctx.client.updateId
      {
        assert NodeInv(st.ctx, s, st.nodes[s]);
        assert st.ctx.client.updateId !in st.nodes[s].server.updateMap;
      }
    }
  }

  /** The name. While a file is open and no call is running, in particular once OpenFile has
      returned a descriptor, every server commits to the name the client last asked for. */
  lemma ServersKnowTheName(ids: set<NodeId>, fifo: bool, steps: seq<Step>, st: State)
    requires Reached(ids, fifo, steps, st)
    ensures st.ctx.returned == Returned(OPEN_OP, true) ==> st.ctx.phase.None? && st.ctx.isFileOpen
    ensures st.ctx.phase.None? && st.ctx.isFileOpen ==>
              forall s | s in st.nodes :: st.nodes[s].server.fileName == st.ctx.fileName
  {
    ReachedInv(ids, fifo, steps, st);
    OpenReturned(st.ctx);
    if st.ctx.phase.None? && st.ctx.isFileOpen {
      OutsidePhase(st.ctx);
      hide CtxInv, PhaseInv, Core, Recorded, Closing, Increasing;
      forall s | s in st.nodes
        ensures st.nodes[s].server.fileName == st.ctx.fileName
      {
        assert NodeInv(st.ctx, s, st.nodes[s]);
        NameOutside(st.ctx, s, st.nodes[s]);
      }
    }
  }

  lemma OpenReturned(c: Ctx)
    requires CtxInv(c)
    ensures c.returned == Returned(OPEN_OP, true) ==> c.phase.None? && c.isFileOpen
  {
    hide PhaseInv;
  }

  lemma NameOutside(c: Ctx, s: NodeId, n: Node)
    requires Core(c, s, n) && !Deciding(c)
    ensures n.server.fileName == c.fileName
  {
    CoreParts(c, s, n);
    hide Ordered, Numbered, DownOk, UpOk, Idling;
  }

  // ----------------------------------------------------------------------- votes and acks

  /** Vote soundness under loss, duplication and reordering: an answer on record is never
      above what the server holds, so the check proves every server complete. */
  lemma VoteSoundness(ids: set<NodeId>, fifo: bool, steps: seq<Step>, st: State)
    requires Reached(ids, fifo, steps, st) && st.ctx.phase == Some(VOTE_OP)
    ensures st.ctx.client.recvServerUpdateId.Keys == st.ctx.recv <= st.nodes.Keys
    ensures forall s | s in st.ctx.client.recvServerUpdateId ::
              st.ctx.client.recvServerUpdateId[s] <= st.nodes[s].server.nextUpdateId <= st.ctx.client.updateId
    ensures Agreed(st.ctx.client) ==> forall s | s in st.nodes :: Complete(st.ctx, st.nodes[s].server)
  {
    ReachedInv(ids, fifo, steps, st);
    LookupsSucceed(ids, fifo, steps, st);
    forall s | s in st.ctx.client.recvServerUpdateId
      ensures st.ctx.client.recvServerUpdateId[s] <= st.nodes[s].server.nextUpdateId
    {
      assert NodeInv(st.ctx, s, st.nodes[s]);
    }
    if Agreed(st.ctx.client) {
      forall s | s in st.nodes
        ensures Complete(st.ctx, st.nodes[s].server)
      {
        AgreementMeansComplete(st.ctx, s, st.nodes[s]);
      }
    }
  }

  lemma FreshOnLink(c: Ctx, s: NodeId, n: Node)
    requires PhaseInv(c) && Core(c, s, n) && c.phase.Some?
    ensures forall t | (t in n.up || t in n.down) && OpOf(t.msg) == c.phase ::
              && (!Idle(c) ==> t.epoch == c.epoch) && (c.clear ==> t.phase == c.begun)
              && Heard(c, s) <= t.phase
  {
    CoreParts(c, s, n);
    ReadEpoch(c, s) by { OnOwnLink(c, s, n); }
    NoneSkipped(c, s, n);
    forall t | (t in n.up || t in n.down) && OpOf(t.msg) == c.phase
      ensures (!Idle(c) ==> t.epoch == c.epoch) && (c.clear ==> t.phase == c.begun) && Heard(c, s) <= t.phase
    {
      OnLink(c, s, n, t);
      PhasesInOrder(c, FirstFrom(c.phases, Heard(c, s), c.phase.value), t.phase);
      OnLinkNotStale(c, n, t);
      hide PhaseInv, FirstFrom, Idle, OpOf, Heard;
    }
  }

  lemma OnLinkNotStale(c: Ctx, n: Node, t: Tagged)
    requires DownOk(c, n) && UpOk(c, n) && (t in n.up || t in n.down)
    ensures NotStale(c, t)
  {
    assert t in n.up ==> UpMsgOk(c, n.server, t);
    assert t in n.down ==> DownMsgOk(c, t);
  }

  /** Message freshness. Every request or answer of the running phase's op on any link, and so
      every answer the client reads, belongs to no phase before `Heard`; in a decision, a
      vote or a CLOSE pass it is of the phase's own epoch. VOTE, COMMIT and ABORT decisions and
      the second CLOSE pass are clear, and then it belongs to that very phase. */
  lemma AcksAreFresh(ids: set<NodeId>, fifo: bool, steps: seq<Step>, st: State)
    requires Reached(ids, fifo, steps, st) && st.ctx.phase.Some?
    ensures !Idle(st.ctx) && st.ctx.phase != Some(OPEN_OP) && (st.ctx.phase != Some(CLOSE_OP) || st.ctx.second) ==>
              st.ctx.clear
    ensures forall s, t | s in st.nodes && (t in st.nodes[s].up || t in st.nodes[s].down)
              && OpOf(t.msg) == st.ctx.phase ::
              && (!Idle(st.ctx) ==> t.epoch == st.ctx.epoch)
              && (st.ctx.clear ==> t.phase == st.ctx.begun)
              && Heard(st.ctx, s) <= t.phase
  {
    ReachedInv(ids, fifo, steps, st);
    ClearPhases(st.ctx);
    hide CtxInv, Core, Recorded, Closing, Increasing, Heard, Idle;
    assert PhaseInv(st.ctx) by { CtxPieces(st.ctx); }
    hide PhaseInv;
    forall s | s in st.nodes
      ensures forall t | (t in st.nodes[s].up || t in st.nodes[s].down) && OpOf(t.msg) == st.ctx.phase ::
                && (!Idle(st.ctx) ==> t.epoch == st.ctx.epoch)
                && (st.ctx.clear ==> t.phase == st.ctx.begun)
                && Heard(st.ctx, s) <= t.phase
    {
      assert NodeInv(st.ctx, s, st.nodes[s]);
      FreshOnLink(st.ctx, s, st.nodes[s]);
    }
  }

  lemma ClearPhases(c: Ctx)
    requires CtxInv(c) && c.phase.Some?
    ensures !Idle(c) && c.phase != Some(OPEN_OP) && (c.phase != Some(CLOSE_OP) || c.second) ==> c.clear
  {
  }

  /** Where freshness comes from: a server that can only answer phases after the latest of
      the op has no message of the op on its links. */
  lemma ClearPhaseStartsEmpty(ids: set<NodeId>, fifo: bool, steps: seq<Step>, st: State, s: NodeId, op: Op)
    requires Reached(ids, fifo, steps, st) && s in st.nodes && FreshFrom(st.ctx, s, op)
    ensures NoneOf(st.nodes[s], op)
  {
    ReachedInv(ids, fifo, steps, st);
    assert NodeInv(st.ctx, s, st.nodes[s]);
    ClosingPart(st.ctx, s, st.nodes[s]);
    CoreParts(st.ctx, s, st.nodes[s]);
    FreshMeansFlushed(st.ctx, s, op, st.nodes[s]);
  }

  // --------------------------------------------------------------------------- CloseFile

  /** The second CLOSE pass can never see a server that still holds an update. */
  lemma SecondCloseSeesNoUpdates(ids: set<NodeId>, fifo: bool, steps: seq<Step>, st: State)
    requires Reached(ids, fifo, steps, st) && st.ctx.phase == Some(CLOSE_OP) && st.ctx.second
    ensures forall s | s in st.nodes ::
              && st.nodes[s].server.updateMap == map[]
              && forall t | t in st.nodes[s].up && t.msg.CloseAck? :: t.msg.fileDesc == 0
  {
    ReachedInv(ids, fifo, steps, st);
    hide PhaseInv, ClientInv, CallInv;
    forall s | s in st.nodes
      ensures st.nodes[s].server.updateMap == map[]
      ensures forall t | t in st.nodes[s].up && t.msg.CloseAck? :: t.msg.fileDesc == 0
    {
      SecondPassNode(st.ctx, s, st.nodes[s]);
    }
  }

  lemma SecondPassNode(c: Ctx, s: NodeId, n: Node)
    requires CtxInv(c) && NodeInv(c, s, n) && c.phase == Some(CLOSE_OP) && c.second
    ensures n.server.updateMap == map[] && forall t | t in n.up && t.msg.CloseAck? :: t.msg.fileDesc == 0
  {
    VoteIsEven(c);
    ClosingPart(c, s, n);
    NothingToFind(c, s, n);
    SecondIsFresh(c, s, n);
    hide PhaseInv, Ordered, Numbered, DownOk, ServerOk, Idling, CloseFresh;
    assert forall t | t in n.up :: UpMsgOk(c, n.server, t);
  }

  lemma SecondIsFresh(c: Ctx, s: NodeId, n: Node)
    requires CtxInv(c) && Core(c, s, n) && c.phase == Some(CLOSE_OP) && c.second
    ensures forall t | t in n.up && t.msg.CloseAck? :: c.wrote < t.phase
  {
    hide *;
    CoreParts(c, s, n);
    OnOwnLink(c, s, n);
    SecondIsSafe(c);
    forall t | t in n.up && t.msg.CloseAck?
      ensures c.wrote < t.phase
    {
      CloseAckOp(t.msg);
      if t.phase <= c.wrote {
        OldCloseIsUnsafe(c, s, n, t);
      }
    }
  }

  lemma CloseAckOp(m: Message)
    ensures m.CloseAck? ==> OpOf(m) == Some(CLOSE_OP)
  {
  }

  lemma SecondIsSafe(c: Ctx)
    requires CtxInv(c) && c.phase == Some(CLOSE_OP) && c.second
    ensures forall s | s in c.client.serverIds :: CloseFresh(c, s)
  {
    hide PhaseInv, ClientInv, CloseFresh;
  }

  /** CloseFile. Called when no server may still answer a CLOSE sent before the latest block,
      it returns normally only if no server held an update when it handled a CLOSE of the
      first pass, or a commit of exactly what the client had cached at the call has been
      completed inside it, on every server. */
  lemma CloseFileCommits(ids: set<NodeId>, fifo: bool, steps: seq<Step>, st: State)
    requires Reached(ids, fifo, steps, st) && st.ctx.returned == Returned(CLOSE_OP, true) && st.ctx.closeSafe
    ensures (exists s :: s in st.nodes && st.nodes[s].held) ==>
              && |st.ctx.log| == st.ctx.callLog + 1 && st.ctx.log[st.ctx.callLog] == st.ctx.callTxn
              && forall s | s in st.nodes :: st.nodes[s].server.disk == DiskAfter(st.ctx.log)
  {
    hide *;
    ReachedMeans(ids, fifo, steps, st);
    GoodMeans(st.ctx, st.nodes);
    CloseReturned(st.ctx, st.nodes);
    DisksWhenReturned(ids, fifo, steps, st);
  }

  lemma CloseReturned(c: Ctx, nodes: map<NodeId, Node>)
    requires CtxInv(c) && NodesInv(c, nodes) && c.returned == Returned(CLOSE_OP, true) && c.closeSafe
    ensures (|c.log| == c.callLog + 1 && c.log[c.callLog] == c.callTxn) || forall s | s in nodes :: !nodes[s].held
  {
    hide PhaseInv, ClientInv, Core, Recorded, Closing, Increasing;
  }

  /** A Commit that returns an error has committed nothing, in a run that kept the
      assumptions; a CloseFile that does has committed nothing either, or everything, if
      only its second CLOSE pass failed. */
  lemma ErrorCommitsNothing(ids: set<NodeId>, fifo: bool, steps: seq<Step>, st: State)
    requires Reached(ids, fifo, steps, st)
    requires st.ctx.returned == Returned(COMMIT_OP, false) || st.ctx.returned == Returned(CLOSE_OP, false)
    ensures st.ctx.returned.call == COMMIT_OP || !st.ctx.second ==> |st.ctx.log| == st.ctx.callLog
    ensures st.ctx.returned.call == CLOSE_OP && st.ctx.second ==>
              |st.ctx.log| == st.ctx.callLog + 1 && st.ctx.log[st.ctx.callLog] == st.ctx.callTxn
    ensures forall s | s in st.nodes :: st.nodes[s].server.disk == DiskAfter(st.ctx.log)
  {
    hide *;
    ReachedMeans(ids, fifo, steps, st);
    GoodMeans(st.ctx, st.nodes);
    ErrorReturned(st.ctx);
    DisksWhenReturned(ids, fifo, steps, st);
  }

  lemma ErrorReturned(c: Ctx)
    requires CtxInv(c) && (c.returned == Returned(COMMIT_OP, false) || c.returned == Returned(CLOSE_OP, false))
    ensures c.returned.call == COMMIT_OP || !c.second ==> |c.log| == c.callLog
    ensures c.returned.call == CLOSE_OP && c.second ==> |c.log| == c.callLog + 1 && c.log[c.callLog] == c.callTxn
  {
    hide PhaseInv, ClientInv;
    assert c.client.Valid() by { CommittingLog(c); }
  }

  // -------------------------------------------------------------------------- durability

  /** Durability. The transactions decided at any time of any run, tainted or not, are the
      first of those decided later. */
  lemma {:induction false} LogOnlyGrows(ids: set<NodeId>, fifo: bool, steps: seq<Step>, i: nat)
    requires Run(ids, fifo, steps).Some? && i <= |steps|
    ensures Run(ids, fifo, steps[..i]).Some?
    ensures Run(ids, fifo, steps[..i]).value.ctx.log <= Run(ids, fifo, steps).value.ctx.log
  {
    if i == |steps| {
      assert steps[..i] == steps;
    } else {
      var n := |steps| - 1;
      assert steps[..n][..i] == steps[..i];
      LogOnlyGrows(ids, fifo, steps[..n], i);
      hide Do;
    }
  }

  // ------------------------------------------------------------- what the proofs start from

  lemma ReachedMeans(ids: set<NodeId>, fifo: bool, steps: seq<Step>, st: State)
    requires Reached(ids, fifo, steps, st)
    ensures Sane(st) && Members(st) && Good(st.ctx, st.nodes)
  {
    RunInv(ids, fifo, steps);
  }

  lemma DisksWhenReturned(ids: set<NodeId>, fifo: bool, steps: seq<Step>, st: State)
    requires Reached(ids, fifo, steps, st) && st.ctx.returned != Nothing
    ensures forall s | s in st.nodes :: st.nodes[s].server.disk == DiskAfter(st.ctx.log)
  {
    hide *;
    ReachedMeans(ids, fifo, steps, st);
    GoodMeans(st.ctx, st.nodes);
    NotCommitting(st.ctx);
    TwoPhaseSafety(ids, fifo, steps, st);
  }

  lemma NotCommitting(c: Ctx)
    requires CtxInv(c) && c.returned != Nothing
    ensures !Committing(c)
  {
    hide PhaseInv, ClientInv;
    assert c.client.Valid() by { CommittingLog(c); }
  }

  lemma DoOtherwise(st: State, step: Step)
    requires Sane(st) && Enabled(st, step) && Members(st) && !step.Receive? && Running(st.ctx)
    ensures step.TimeOut? ==>
              Do(st, step).ctx == Leave(st.ctx, Finish(st.ctx.client, st.ctx.phase.value, st.ctx.recv), false)
    ensures step.ReceiveForeign? ==>
              step.from !in st.ctx.client.serverIds && Do(st, step).ctx == React(st.ctx, step.from, step.m).0
    ensures !step.TimeOut? && !step.ReceiveForeign? ==>
              Do(st, step).ctx == (if step.Repeat? then st.ctx.(asked := true) else st.ctx)
  {
    hide React, Leave, Multicast, DeliverTo;
  }

  lemma CtxBasics(c: Ctx)
    requires CtxInv(c)
    ensures c.client.Valid() && (c.phase.Some? ==> Running(c) && c.returned == Nothing)
    ensures c.recv <= c.client.serverIds && |c.client.serverIds| == c.client.numServers
  {
  }

  lemma NotTainted(ids: set<NodeId>, fifo: bool, steps: seq<Step>, st: State)
    requires Reached(ids, fifo, steps, st)
    ensures !st.ctx.tainted
  {
  }
}
