/** The invariant holds after every step of every run. */
module Reachability {
  import opened FileModel
  import opened Messages
  import opened ClientSpec
  import opened Network
  import opened Protocol
  import opened Invariant
  import opened Preservation

  // --------------------------------------------------------------------- counting an ack

  /** `m` is `c` after an answer of `s` was read, and counted unless it asks to go on. */
  ghost predicate CountedAck(c: Ctx, m: Ctx, s: NodeId) {
    && c.phase.Some?
    && m == c.(recv := m.recv, heard := c.heard[s := FirstFrom(c.phases, Heard(c, s), c.phase.value)],
               client := c.client.(recvServerUpdateId := m.client.recvServerUpdateId))
    && (m.recv == c.recv || m.recv == c.recv + {s})
    && (forall t | t != s :: t in m.client.recvServerUpdateId <==> t in c.client.recvServerUpdateId)
    && (forall t | t != s && t in c.client.recvServerUpdateId ::
          t in m.client.recvServerUpdateId && m.client.recvServerUpdateId[t] == c.client.recvServerUpdateId[t])
  }

  lemma CountedLinks(c: Ctx, m: Ctx, s: NodeId, n: Node)
    requires DownOk(c, n) && UpOk(c, n) && ServerOk(c, n) && CountedAck(c, m, s)
    ensures DownOk(m, n) && UpOk(m, n) && ServerOk(m, n)
  {
    assert forall t | t in n.down :: DownMsgOk(c, t) && DownMsgOk(m, t);
    assert forall t | t in n.up :: UpMsgOk(c, n.server, t) && UpMsgOk(m, n.server, t);
    hide DownOk, UpOk;
    assert Applied(c, n) == Applied(m, n);
  }

  lemma CountedOthers(c: Ctx, m: Ctx, s: NodeId, r: NodeId, n: Node)
    requires Ordered(c, r, n) && Numbered(c, r, n) && CountedAck(c, m, s) && r != s
    ensures Ordered(m, r, n) && Numbered(m, r, n) && CloseFresh(m, r) == CloseFresh(c, r)
  {
    hide Pairwise;
    assert Heard(m, r) == Heard(c, r) && Floor(m, r) == Floor(c, r);
  }

  lemma CountedRest(c: Ctx, m: Ctx, s: NodeId, r: NodeId, n: Node)
    requires NodeInv(c, r, n) && CountedAck(c, m, s) && r != s && CloseFresh(m, r) == CloseFresh(c, r)
    ensures Recorded(m, r, n) && Closing(m, r, n) && Increasing(m, r, n) && (ClosedWithoutCommit(m) ==> !n.held)
  {
    hide Core, CloseFresh, Pairwise;
    assert r in m.recv <==> r in c.recv;
  }

  lemma NodeOfParts(c: Ctx, s: NodeId, n: Node)
    requires Ordered(c, s, n) && Numbered(c, s, n) && DownOk(c, n) && UpOk(c, n) && ServerOk(c, n) && Idling(n)
    requires Recorded(c, s, n) && Closing(c, s, n) && Increasing(c, s, n) && (ClosedWithoutCommit(c) ==> !n.held)
    ensures NodeInv(c, s, n)
  {
    CoreOf(c, s, n);
    hide Core, Recorded, Closing, Increasing;
  }

  lemma CountKeepsOthers(c: Ctx, m: Ctx, s: NodeId, r: NodeId, n: Node)
    requires NodeInv(c, r, n) && CountedAck(c, m, s) && r != s
    ensures NodeInv(m, r, n)
  {
    hide *;
    ClosingPart(c, r, n);
    CoreParts(c, r, n);
    CountedLinks(c, m, s, n);
    CountedOthers(c, m, s, r, n);
    CountedRest(c, m, s, r, n);
    NodeOfParts(m, r, n);
  }

  /** The first answer on a link is an acknowledgement of the running phase, and is read. */
  ghost predicate Counting(c: Ctx, m: Ctx, s: NodeId, n: Node) {
    && CountedAck(c, m, s) && n.up != []
    && OpOf(n.up[0].msg) == c.phase && IsAck(n.up[0].msg)
    && (n.up[0].msg.fileDesc == 0 || (n.up[0].msg.fileDesc == 1 && n.up[0].msg.CloseAck?))
    && m.recv == (if n.up[0].msg.fileDesc == 0 then c.recv + {s} else c.recv)
    && m.client.recvServerUpdateId ==
         (if n.up[0].msg.VoteAck? then c.client.recvServerUpdateId[s := n.up[0].msg.updateId]
          else c.client.recvServerUpdateId)
  }

  /** An answer to a decision, a vote or a CLOSE comes from the epoch as it is. */
  lemma ReadEpoch(c: Ctx, s: NodeId)
    requires PhaseInv(c) && c.phase.Some? && s in c.client.serverIds
    ensures var k := FirstFrom(c.phases, Heard(c, s), c.phase.value);
            && k <= c.begun < |c.phases| && c.phases[k].op == c.phase.value
            && c.phases[Heard(c, s)].epoch <= c.phases[k].epoch
            && (!Idle(c) ==> c.phases[k].epoch == c.epoch)
  {
    hide *;
    PhaseParts(c);
    FloorBound(c, s);
    ReadPhase(c, s);
    var h, k := Heard(c, s), FirstFrom(c.phases, Heard(c, s), c.phase.value);
    PhaseBounds(c, h, k);
    PhaseBounds(c, k, c.begun);
    RunningIsLatest(c);
    FloorMeans(c, s);
    EpochRead(c, s, k);
  }

  lemma PhaseBounds(c: Ctx, h: nat, k: nat)
    requires History(c) && h <= k < |c.phases|
    ensures c.phases[h].epoch <= c.phases[k].epoch <= c.epoch && EpochOk(c, c.phases[k].op, c.phases[k].epoch)
  {
    hide EpochOk;
  }

  lemma RunningIsLatest(c: Ctx)
    requires Fitting(c) && c.phase.Some?
    ensures c.begun < |c.phases| && c.phases[c.begun] == Phase(c.phase.value, c.epoch)
  {
    hide HeardSince;
  }

  lemma FloorMeans(c: Ctx, s: NodeId)
    requires Heard(c, s) < |c.phases|
    ensures Floor(c, s) == c.phases[Heard(c, s)].epoch
  {
  }

  lemma EpochRead(c: Ctx, s: NodeId, k: nat)
    requires OnlyDecision(c) && Fitting(c) && c.phase.Some? && s in c.client.serverIds && Heard(c, s) <= k < |c.phases|
    requires c.phases[k].op == c.phase.value && EpochOk(c, c.phase.value, c.phases[k].epoch)
    requires EpochOk(c, c.phase.value, c.epoch)
    requires c.epoch - (if Deciding(c) && c.phase != Some(COMMIT_OP) then 2 else 1) <= c.phases[k].epoch <= c.epoch
    ensures !Idle(c) ==> c.phases[k].epoch == c.epoch
  {
    hide HeardSince;
  }

  lemma ReadPhase(c: Ctx, s: NodeId)
    requires PhaseInv(c) && c.phase.Some? && s in c.client.serverIds
    ensures var k := FirstFrom(c.phases, Heard(c, s), c.phase.value);
            Heard(c, s) <= k <= c.begun < |c.phases| && c.phases[k].op == c.phase.value
  {
    hide OnlyDecision, HeardSince;
    assert Heard(c, s) <= c.begun && c.phases[c.begun].op == c.phase.value;
  }

  lemma PhasesInOrder(c: Ctx, j: nat, k: nat)
    requires PhaseInv(c) && j <= k < |c.phases|
    ensures c.phases[j].epoch <= c.phases[k].epoch
  {
  }

  /** Every message of the running op still on the link is from the first such phase on. */
  lemma NoneSkipped(c: Ctx, s: NodeId, n: Node)
    requires Ordered(c, s, n) && Numbered(c, s, n) && DownOk(c, n) && UpOk(c, n) && c.phase.Some?
    ensures forall t | t in n.up || t in n.down ::
              OpOf(t.msg) == c.phase ==> FirstFrom(c.phases, Heard(c, s), c.phase.value) <= t.phase < |c.phases|
                                         && c.phases[t.phase].epoch == t.epoch
  {
    forall t | (t in n.up || t in n.down) && OpOf(t.msg) == c.phase
      ensures FirstFrom(c.phases, Heard(c, s), c.phase.value) <= t.phase < |c.phases|
      ensures c.phases[t.phase].epoch == t.epoch
    {
      OnLink(c, s, n, t);
    }
  }

  lemma ReadOrdered(c: Ctx, m: Ctx, s: NodeId, n: Node)
    requires Ordered(c, s, n) && CountedAck(c, m, s) && n.up != [] && Floor(m, s) <= n.up[0].epoch
    ensures Ordered(m, s, n.(up := n.up[1..]))
  {
    hide FirstFrom;
    assert n.up[0] in n.up && forall j | 0 < j < |n.up| :: EpochLe(n.up[0], n.up[j]);
  }

  lemma ReadNumbered(c: Ctx, m: Ctx, s: NodeId, n: Node)
    requires Numbered(c, s, n) && CountedAck(c, m, s) && n.up != [] && OpOf(n.up[0].msg) == c.phase
    requires forall t | t in n.up || t in n.down :: OpOf(t.msg) == c.phase ==> Heard(m, s) <= t.phase
    requires forall t | t in n.up :: OpOf(t.msg).Some?
    ensures Numbered(m, s, n.(up := n.up[1..]))
  {
    hide OpOf, FirstFrom;
    assert n.up[0] in n.up && forall j | 0 < j < |n.up| :: NumberLe(n.up[0], n.up[j]);
  }

  lemma AcksHaveOps(c: Ctx, n: Node)
    requires UpOk(c, n)
    ensures forall t | t in n.up :: OpOf(t.msg).Some? && UpMsgOk(c, n.server, t)
  {
  }

  /** An acknowledgement that a phase reads answers no phase of the op before the first from
      which the server might still have sent one; in a clear phase it answers that very
      phase, and in a decision, a vote or a CLOSE pass one of its epoch. Nothing older is
      left behind it on the link. */
  lemma CountedAckIsFresh(c: Ctx, m: Ctx, s: NodeId, n: Node)
    requires PhaseInv(c) && NodeInv(c, s, n) && Counting(c, m, s, n)
    ensures c.clear ==> n.up[0].phase == c.begun
    ensures !Idle(c) ==> n.up[0].epoch == n.seen == c.epoch && forall t | t in n.up :: t.epoch == c.epoch
    ensures Ordered(m, s, n.(up := n.up[1..])) && Numbered(m, s, n.(up := n.up[1..]))
  {
    hide PhaseInv, NodeInv, Pairwise, NumberLe, Floor, Heard, FirstFrom, OpOf, IsAck;
    var t := n.up[0];
    ClosingPart(c, s, n);
    CoreParts(c, s, n);
    assert t in n.up && s in c.client.serverIds;
    AcksHaveOps(c, n);
    ReadEpoch(c, s);
    NoneSkipped(c, s, n);
    PhasesInOrder(c, FirstFrom(c.phases, Heard(c, s), c.phase.value), t.phase);
    HeardNow(c, m, s);
    UpInOrder(c, s, n);
    hide Core, DownOk, UpOk, ServerOk, Idling, Ordered, Numbered, UpMsgOk;
    ReadOrdered(c, m, s, n);
    ReadNumbered(c, m, s, n);
    assert NotStale(c, t) by { StaleOr(c, n, t); }
  }

  lemma StaleOr(c: Ctx, n: Node, t: Tagged)
    requires UpMsgOk(c, n.server, t)
    ensures NotStale(c, t)
  {
  }

  lemma UpInOrder(c: Ctx, s: NodeId, n: Node)
    requires Ordered(c, s, n) && n.up != []
    ensures forall t | t in n.up :: n.up[0].epoch <= t.epoch <= n.seen <= c.epoch
  {
    forall t | t in n.up
      ensures n.up[0].epoch <= t.epoch
    {
      var i :| 0 <= i < |n.up| && n.up[i] == t;
      assert i > 0 ==> EpochLe(n.up[0], n.up[i]);
    }
  }

  lemma HeardNow(c: Ctx, m: Ctx, s: NodeId)
    requires CountedAck(c, m, s)
    ensures Heard(m, s) == FirstFrom(c.phases, Heard(c, s), c.phase.value)
    ensures Heard(m, s) < |c.phases| ==> Floor(m, s) == c.phases[Heard(m, s)].epoch
    ensures c.phase == Some(CLOSE_OP) ==> CloseFresh(m, s) == CloseFresh(c, s)
  {
  }

  lemma ReadClosing(c: Ctx, m: Ctx, s: NodeId, n: Node)
    requires Closing(c, s, n) && Counting(c, m, s, n) && n.up[0].phase <= c.begun
    requires c.phase == Some(CLOSE_OP) ==> CloseFresh(m, s) == CloseFresh(c, s)
    requires c.phase == Some(CLOSE_OP) && CloseFresh(c, s) ==> n.up[0].phase > c.wrote
    ensures Closing(m, s, n.(up := n.up[1..]))
  {
    hide CloseFresh, FirstFrom, Pairwise;
    assert n.up[0] in n.up;
  }

  lemma ReadVotes(c: Ctx, m: Ctx, s: NodeId, n: Node)
    requires Recorded(c, s, n) && Increasing(c, s, n) && Counting(c, m, s, n)
    requires n.up[0].msg.VoteAck? ==> n.up[0].msg.updateId <= n.server.nextUpdateId
    ensures var r := n.(up := n.up[1..]);
            Recorded(m, s, r) && Increasing(m, s, r) && (ClosedWithoutCommit(m) <==> ClosedWithoutCommit(c))
  {
    hide FirstFrom;
    if c.fifo && c.phase == Some(VOTE_OP) {
      assert forall j | 0 < j < |n.up| :: VotesLe(n.up[0], n.up[j]);
    }
  }

  lemma VotesPart(c: Ctx, s: NodeId, n: Node)
    requires NodeInv(c, s, n)
    ensures Recorded(c, s, n) && Increasing(c, s, n) && (ClosedWithoutCommit(c) ==> !n.held)
  {
  }

  lemma FirstAnswer(c: Ctx, s: NodeId, n: Node, m: Ctx)
    requires PhaseInv(c) && Core(c, s, n) && Counting(c, m, s, n) && (!Idle(c) ==> n.up[0].epoch == c.epoch)
    ensures n.up[0].msg.VoteAck? ==> n.up[0].msg.updateId <= n.server.nextUpdateId
    ensures c.phase == Some(CLOSE_OP) && CloseFresh(c, s) ==> n.up[0].phase > c.wrote
    ensures n.up[0].phase <= c.begun
  {
    var t := n.up[0];
    CoreParts(c, s, n);
    HistoryPart(c);
    NumbersOnLink(c, s, n);
    hide PhaseInv, Core, Ordered, ServerOk, Idling, CloseFresh, History, FirstFrom;
    assert t in n.up && UpMsgOk(c, n.server, t);
    if c.phase == Some(CLOSE_OP) && t.phase <= c.wrote {
      OldCloseIsUnsafe(c, s, n, t);
    }
  }

  lemma CountKeeps(c: Ctx, m: Ctx, s: NodeId, n: Node)
    requires PhaseInv(c) && NodeInv(c, s, n) && Counting(c, m, s, n)
    ensures NodeInv(m, s, n.(up := n.up[1..]))
  {
    var r := n.(up := n.up[1..]);
    assert CountedAck(c, m, s) && n.up != [];
    hide *;
    CountedAckIsFresh(c, m, s, n);
    PopKeeps(c, s, n);
    ClosingPart(c, s, n);
    ClosingPart(c, s, r);
    CoreParts(c, s, r);
    VotesPart(c, s, n);
    HeardNow(c, m, s);
    FirstAnswer(c, s, n, m);
    CountedLinks(c, m, s, r);
    ReadClosing(c, m, s, n);
    ReadVotes(c, m, s, n);
    NodeOfParts(m, s, r);
  }

  lemma CountedFloors(c: Ctx, m: Ctx, s: NodeId)
    requires PhaseInv(c) && CountedAck(c, m, s) && s in c.client.serverIds
    ensures Heard(c, s) <= Heard(m, s) <= c.begun && Floor(c, s) <= Floor(m, s) && (!Idle(c) ==> Floor(m, s) == c.epoch)
    ensures forall r | r != s :: Heard(m, r) == Heard(c, r) && Floor(m, r) == Floor(c, r)
  {
    ReadEpoch(c, s);
    HeardNow(c, m, s);
    ReadPhase(c, s);
    hide PhaseInv, FirstFrom;
  }

  lemma CountedHistory(c: Ctx, m: Ctx, s: NodeId)
    requires History(c) && CountedAck(c, m, s) && Heard(m, s) <= c.begun
    requires forall r | r != s :: Heard(m, r) == Heard(c, r)
    ensures History(m)
  {
    hide FirstFrom, Heard, Floor;
  }

  lemma CountedOnly(c: Ctx, m: Ctx, s: NodeId)
    requires OnlyDecision(c) && CountedAck(c, m, s) && Heard(c, s) <= Heard(m, s)
    requires forall r | r != s :: Heard(m, r) == Heard(c, r)
    ensures OnlyDecision(m)
  {
    hide FirstFrom;
    assert forall r | r in c.client.serverIds :: Heard(c, r) <= Heard(m, r);
    hide Heard;
  }

  lemma CountedFitting(c: Ctx, m: Ctx, s: NodeId)
    requires Fitting(c) && CountedAck(c, m, s) && Floor(c, s) <= Floor(m, s)
    requires forall r | r != s :: Floor(m, r) == Floor(c, r)
    ensures Fitting(m)
  {
    hide FirstFrom, Floor;
  }

  lemma CountHistory(c: Ctx, m: Ctx, s: NodeId)
    requires PhaseInv(c) && CountedAck(c, m, s) && s in c.client.serverIds
    ensures PhaseInv(m)
  {
    CountedFloors(c, m, s);
    hide History, OnlyDecision, Fitting, CountedAck, Heard, Floor;
    CountedHistory(c, m, s);
    CountedOnly(c, m, s);
    CountedFitting(c, m, s);
  }

  lemma CountClient(c: Ctx, m: Ctx, s: NodeId)
    requires ClientInv(c) && CountedAck(c, m, s) && s in c.client.serverIds
    requires !Idle(c) ==> Floor(m, s) == c.epoch
    requires forall r | r != s :: Floor(m, r) == Floor(c, r)
    requires c.phase != Some(VOTE_OP) ==> m.client == c.client
    requires c.phase == Some(VOTE_OP) ==> m.client.recvServerUpdateId.Keys == m.recv
    ensures ClientInv(m)
  {
    hide FirstFrom, Floor;
  }

  lemma CountCall(c: Ctx, m: Ctx, s: NodeId)
    requires c.client.Valid() && CallInv(c) && CountedAck(c, m, s)
    requires c.phase == Some(CLOSE_OP) ==> CloseSafe(m) == CloseSafe(c)
    ensures m.client.Valid() && CallInv(m)
  {
    hide FirstFrom, CloseSafe;
  }

  lemma CountCtx(c: Ctx, m: Ctx, s: NodeId)
    requires CtxInv(c) && CountedAck(c, m, s) && s in c.client.serverIds
    requires c.phase != Some(VOTE_OP) ==> m.client == c.client
    requires c.phase == Some(VOTE_OP) ==> m.client.recvServerUpdateId.Keys == m.recv
    ensures CtxInv(m)
  {
    CountHistory(c, m, s);
    CountedFloors(c, m, s);
    CountSafe(c, m, s);
    hide PhaseInv, ClientInv, CallInv, CloseSafe, FirstFrom, Floor, CountedAck;
    assert c.client.Valid() by { CtxPieces(c); }
    CountClient(c, m, s);
    CountCall(c, m, s);
  }

  lemma CountSafe(c: Ctx, m: Ctx, s: NodeId)
    requires CountedAck(c, m, s)
    ensures c.phase == Some(CLOSE_OP) ==> CloseSafe(m) == CloseSafe(c)
  {
    HeardNow(c, m, s);
    assert forall r | r != s :: Heard(m, r) == Heard(c, r);
    hide FirstFrom;
    if c.phase == Some(CLOSE_OP) {
      assert forall r :: CloseFresh(m, r) == CloseFresh(c, r);
    }
  }

  // ------------------------------------------------------------------- leaving a phase

  /** Every server was counted by a phase that reads its own epoch: all were heard in it. */
  lemma FullIsHeard(c: Ctx)
    requires ClientInv(c) && c.recv == c.client.serverIds && !c.second && !Idle(c)
    ensures HeardSince(c, c.epoch)
  {
  }

  lemma EndDecisionInv(c: Ctx, d: Ctx)
    requires PhaseInv(c) && Deciding(c) && HeardSince(c, c.epoch) && c.phase.Some?
    requires d == EndDecision(c).(client := d.client, isFileOpen := d.isFileOpen, returned := d.returned,
                                  tainted := d.tainted)
    requires d.client.serverIds == c.client.serverIds
    ensures PhaseInv(d) && !Deciding(d)
  {
    HistoryFrame(c, d);
    assert forall s :: Floor(d, s) == Floor(c, s);
    assert forall k | 0 <= k < |c.phases| :: c.phases[k].epoch <= c.epoch;
    hide History;
  }

  lemma LeaveOpenCtx(c: Ctx, ret: Ret)
    requires CtxInv(c) && c.phase == Some(OPEN_OP) && !LeaveOpen(c, ret).tainted
    requires ret == NormalReturn ==> c.recv == c.client.serverIds
    requires ret != NormalReturn && c.phase == Some(OPEN_OP) ==> c.client.serverIds != {}
    ensures CtxInv(LeaveOpen(c, ret))
  {
    var d := LeaveOpen(c, ret);
    if Deciding(c) && ret == NormalReturn {
      FullIsHeard(c);
      EndDecisionInv(c, d);
    } else {
      EndedPhaseInv(c, d);
    }
    LeaveOpenRest(c, ret);
    hide PhaseInv, ClientInv, CallInv, LeaveOpen;
  }

  lemma LeaveOpenRest(c: Ctx, ret: Ret)
    requires ClientInv(c) && CallInv(c) && c.phase == Some(OPEN_OP) && !LeaveOpen(c, ret).tainted
    ensures ClientInv(LeaveOpen(c, ret)) && CallInv(LeaveOpen(c, ret))
  {
    hide CurrentTxn, CloseSafe;
  }

  lemma LeaveVoteCtx(c: Ctx, ret: Ret)
    requires CtxInv(c) && c.phase == Some(VOTE_OP) && !LeaveVote(c, ret, true).tainted
    requires ret == NormalReturn ==> c.recv == c.client.serverIds
    ensures CtxInv(LeaveVote(c, ret, true))
  {
    VotingCtx(c);
    if ret == NormalReturn {
      NotIdleVote(c);
      FullIsHeard(c);
      CommitStartsClear(c);
      var e := c.(log := c.log + [CurrentTxn(c)]);
      LoggedInv(c, e);
      BeginDecisionInv(e, COMMIT_OP);
      DecidedRest(c, e, COMMIT_OP);
    } else if ret == ErrorReturn {
      BeginDecisionInv(c, ABORT_OP) by { UntaintedClear(c, ABORT_OP); }
      DecidedRest(c, c, ABORT_OP);
    } else {
      AskAgain(c, c.(asked := false));
    }
    hide PhaseInv, ClientInv, CallInv;
  }

  lemma NotIdleVote(c: Ctx)
    requires CtxInv(c) && c.phase == Some(VOTE_OP)
    ensures !Idle(c) && !c.second
  {
    hide PhaseInv, ClientInv;
    assert c.client.Valid() by { VotingCtx(c); }
  }

  lemma UntaintedClear(c: Ctx, op: Op)
    requires !BeginDecision(c, op).tainted
    ensures Clear(c, op)
  {
    hide Clear;
  }

  lemma AskAgain(c: Ctx, d: Ctx)
    requires CtxInv(c) && d == c.(asked := d.asked)
    ensures CtxInv(d)
  {
    CtxPieces(c);
    PhaseFrame(c, d);
    AskedRest(c, d);
    hide PhaseInv, ClientInv, CallInv;
  }

  lemma AskedRest(c: Ctx, d: Ctx)
    requires ClientInv(c) && CallInv(c) && d == c.(asked := d.asked)
    ensures ClientInv(d) && d.client.Valid() && CallInv(d)
  {
    assert forall s :: CloseFresh(d, s) == CloseFresh(c, s) && Floor(d, s) == Floor(c, s);
    hide CloseFresh, Floor;
  }

  lemma LoggedInv(c: Ctx, e: Ctx)
    requires PhaseInv(c) && HeardSince(c, c.epoch) && Clear(c, COMMIT_OP) && e == c.(log := e.log)
    ensures PhaseInv(e) && HeardSince(e, e.epoch) && Clear(e, COMMIT_OP)
  {
    HistoryFrame(c, e);
    OnlyFrame(c, e);
    ClearFrame(c, e, COMMIT_OP);
    assert forall s :: Floor(e, s) == Floor(c, s);
    hide History, OnlyDecision, Clear;
  }

  /** Every server has answered the vote, and every COMMIT came before it. */
  lemma CommitStartsClear(c: Ctx)
    requires PhaseInv(c) && !Deciding(c) && HeardSince(c, c.epoch)
    ensures Clear(c, COMMIT_OP)
  {
    forall s | s in c.client.serverIds
      ensures FreshFrom(c, s, COMMIT_OP)
    {
      hide OnlyDecision;
      assert c.epoch <= Floor(c, s) && Heard(c, s) <= c.begun;
      if COMMIT_OP in c.started {
        var k := c.started[COMMIT_OP];
        assert c.phases[k].op == COMMIT_OP && EpochOk(c, COMMIT_OP, c.phases[k].epoch) && c.phases[k].epoch <= c.epoch;
        LaterEpoch(c, Heard(c, s), k);
      }
    }
  }

  lemma DecidedRest(c: Ctx, e: Ctx, op: Op)
    requires ClientInv(c) && CallInv(c) && c.phase == Some(VOTE_OP) && (op == ABORT_OP || op == COMMIT_OP)
    requires !Deciding(c)
    requires e == if op == COMMIT_OP then c.(log := c.log + [CurrentTxn(c)]) else c
    ensures ClientInv(BeginDecision(e, op)) && CallInv(BeginDecision(e, op))
  {
    hide Clear, CloseSafe;
  }

  lemma CommitEnds(c: Ctx)
    requires CtxInv(c) && c.phase == Some(COMMIT_OP) && c.recv == c.client.serverIds
    ensures Deciding(c) && !c.second && !Idle(c) && HeardSince(c, c.epoch)
  {
    RunningCommit(c);
    FullIsHeard(c);
  }

  lemma RunningCommit(c: Ctx)
    requires CtxInv(c) && c.phase == Some(COMMIT_OP)
    ensures Deciding(c) && !c.second && !Idle(c) && c.client.Valid() && c.returned == Nothing
  {
    hide OnlyDecision, HeardSince;
    assert EpochOk(c, c.phases[c.begun].op, c.phases[c.begun].epoch);
  }

  /** After a decision that all have answered, what came before is no longer sent. */
  lemma EndedIsFresh(c: Ctx, d: Ctx)
    requires PhaseInv(c) && Deciding(c) && HeardSince(c, c.epoch) && c.phase.Some?
    requires d.phases == c.phases && d.heard == c.heard && d.started == c.started && d.wrote == c.wrote
    requires d.client.serverIds == c.client.serverIds
    ensures Clear(d, CLOSE_OP) && CloseSafe(d)
    ensures CloseSafe(d.(phases := d.phases + [Phase(CLOSE_OP, c.epoch + 1)]))
  {
    hide *;
    PhaseParts(c);
    NoCloseLater(c);
    forall s | s in c.client.serverIds
      ensures FreshFrom(d, s, CLOSE_OP) && CloseFresh(d, s)
      ensures CloseFresh(d.(phases := d.phases + [Phase(CLOSE_OP, c.epoch + 1)]), s)
    {
      EndedFresh(c, d, s);
    }
    ClearAndSafe(d);
    ClearAndSafe(d.(phases := d.phases + [Phase(CLOSE_OP, c.epoch + 1)]));
  }

  /** Once all servers were heard in a decision, they answer no earlier CLOSE. */
  lemma NoCloseLater(c: Ctx)
    requires PhaseInv(c) && Deciding(c) && HeardSince(c, c.epoch)
    ensures forall s, k | s in c.client.serverIds && Heard(c, s) <= k < |c.phases| :: c.phases[k].op != CLOSE_OP
  {
    hide OnlyDecision;
    forall s, k | s in c.client.serverIds && 0 <= k < |c.phases| && c.phases[k].op == CLOSE_OP
      ensures k < Heard(c, s)
    {
      assert c.epoch <= Floor(c, s) && Heard(c, s) <= c.begun;
      assert EpochOk(c, CLOSE_OP, c.phases[k].epoch) && c.phases[k].epoch <= c.epoch;
      LaterEpoch(c, Heard(c, s), k);
    }
  }

  lemma EndedFresh(c: Ctx, d: Ctx, s: NodeId)
    requires History(c) && s in c.client.serverIds
    requires forall k | Heard(c, s) <= k < |c.phases| :: c.phases[k].op != CLOSE_OP
    requires d.phases == c.phases && d.heard == c.heard && d.started == c.started && d.wrote == c.wrote
    ensures FreshFrom(d, s, CLOSE_OP) && CloseFresh(d, s)
    ensures CloseFresh(d.(phases := d.phases + [Phase(CLOSE_OP, c.epoch + 1)]), s)
  {
    assert CLOSE_OP in c.started ==> c.phases[c.started[CLOSE_OP]].op == CLOSE_OP;
  }

  lemma ClearAndSafe(d: Ctx)
    ensures (forall s | s in d.client.serverIds :: FreshFrom(d, s, CLOSE_OP)) ==> Clear(d, CLOSE_OP)
    ensures (forall s | s in d.client.serverIds :: CloseFresh(d, s)) ==> CloseSafe(d)
  {
    hide FreshFrom, CloseFresh;
  }

  lemma LeaveCommitCtx(c: Ctx)
    requires CtxInv(c) && c.phase == Some(COMMIT_OP) && c.recv == c.client.serverIds
    ensures CtxInv(LeaveCommit(c, NormalReturn))
  {
    CommitEnds(c);
    LeaveCommitPhase(c);
    LeaveCommitRest(c);
    hide PhaseInv, ClientInv, CallInv, LeaveCommit;
  }

  lemma LeaveCommitPhase(c: Ctx)
    requires PhaseInv(c) && c.phase == Some(COMMIT_OP) && Deciding(c) && HeardSince(c, c.epoch)
    ensures PhaseInv(LeaveCommit(c, NormalReturn))
  {
    hide *;
    var d := EndDecision(c.(client := c.client.Reset()));
    LeaveCommitShape(c);
    CommitEnded(c);
    EndDecisionInv(c, d);
    if c.call == CLOSE_OP {
      StartPhaseInv(d, CLOSE_OP);
      SecondPassPhase(d, LeaveCommit(c, NormalReturn));
    } else {
      EndDecisionInv(c, LeaveCommit(c, NormalReturn));
    }
  }

  lemma CommitEnded(c: Ctx)
    ensures var d := EndDecision(c.(client := c.client.Reset()));
            && d == EndDecision(c).(client := d.client, isFileOpen := d.isFileOpen, returned := d.returned,
                                    tainted := d.tainted)
            && d.client.serverIds == c.client.serverIds && d.phase.None? && d.phase != Some(VOTE_OP)
            && d.returned == c.returned && d.tainted == c.tainted
  {
  }

  lemma SecondPassPhase(c: Ctx, d: Ctx)
    requires PhaseInv(StartPhase(c, CLOSE_OP)) && d == StartPhase(c, CLOSE_OP).(recv := d.recv, second := true)
    ensures PhaseInv(d)
  {
    PhaseFrame(StartPhase(c, CLOSE_OP), d);
  }

  lemma LeaveCommitRest(c: Ctx)
    requires CtxInv(c) && c.phase == Some(COMMIT_OP) && Deciding(c) && HeardSince(c, c.epoch)
    ensures ClientInv(LeaveCommit(c, NormalReturn)) && CallInv(LeaveCommit(c, NormalReturn))
  {
    hide *;
    var d := EndDecision(c.(client := c.client.Reset()));
    RunningCommit(c);
    CtxPieces(c);
    EndedFields(c);
    EndedIsFresh(c, d);
    SecondSafe(c, d);
    LeaveCommitClient(c);
    LeaveCommitCall(c);
  }

  lemma EndedFields(c: Ctx)
    requires c.phase == Some(COMMIT_OP)
    ensures var d := EndDecision(c.(client := c.client.Reset()));
            && c.phase.Some? && d.phases == c.phases && d.heard == c.heard && d.started == c.started
            && d.wrote == c.wrote && d.client.serverIds == c.client.serverIds && d.epoch == c.epoch + 1
  {
  }

  lemma CtxPieces(c: Ctx)
    requires CtxInv(c)
    ensures PhaseInv(c) && ClientInv(c) && c.client.Valid() && CallInv(c)
  {
  }

  lemma SecondSafe(c: Ctx, d: Ctx)
    requires d == EndDecision(c.(client := c.client.Reset())) && Clear(d, CLOSE_OP)
    requires CloseSafe(d.(phases := d.phases + [Phase(CLOSE_OP, d.epoch)]))
    ensures CloseSafe(StartPhase(d, CLOSE_OP).(recv := c.survivors, second := true))
    ensures StartPhase(d, CLOSE_OP).clear
  {
    hide FirstFrom;
    assert forall s :: CloseFresh(StartPhase(d, CLOSE_OP).(recv := c.survivors, second := true), s)
                    == CloseFresh(d.(phases := d.phases + [Phase(CLOSE_OP, d.epoch)]), s);
  }

  lemma LeaveCommitCall(c: Ctx)
    requires c.client.Valid() && CallInv(c) && c.phase == Some(COMMIT_OP)
    requires var d := EndDecision(c.(client := c.client.Reset()));
             && CloseSafe(StartPhase(d, CLOSE_OP).(recv := c.survivors, second := true))
               && StartPhase(d, CLOSE_OP).clear
    ensures LeaveCommit(c, NormalReturn).client.Valid() && CallInv(LeaveCommit(c, NormalReturn))
  {
    hide Clear, Onward, CurrentTxn, CloseSafe, WithinCall;
  }

  lemma LeaveCommitClient(c: Ctx)
    requires ClientInv(c) && CallInv(c) && c.phase == Some(COMMIT_OP)
    ensures ClientInv(LeaveCommit(c, NormalReturn))
  {
    hide Clear, CloseSafe, CurrentTxn, Floor;
  }

  lemma LeaveAbortCtx(c: Ctx, ret: Ret)
    requires CtxInv(c) && c.phase == Some(ABORT_OP) && !LeaveAbort(c, ret).tainted
    requires ret == NormalReturn ==> c.recv == c.client.serverIds
    ensures CtxInv(LeaveAbort(c, ret))
  {
    AbortParts(c);
    LeaveAbortShape(c, ret);
    LeaveAbortRest(c, ret);
    hide CtxInv, PhaseInv, ClientInv, CallInv, LeaveAbort, HeardSince;
    var d := LeaveAbort(c, ret);
    if Deciding(c) {
      assert !Idle(c);
      FullIsHeard(c);
      EndDecisionInv(c, d);
    } else {
      EndedPhaseInv(c, d);
    }
    CtxOf(d);
  }

  lemma CtxOf(c: Ctx)
    requires PhaseInv(c) && ClientInv(c) && c.client.Valid() && CallInv(c)
    ensures CtxInv(c)
  {
  }

  lemma AbortParts(c: Ctx)
    requires CtxInv(c) && c.phase == Some(ABORT_OP)
    ensures PhaseInv(c) && ClientInv(c) && c.client.Valid() && CallInv(c) && !c.second && c.returned == Nothing
    ensures !Deciding(c) ==>
              c.client.updateId == 0 && c.client.recvServerUpdateId == map[] && c.client.updateMap == map[]
  {
    hide PhaseInv;
    assert c.client.updateId == 0 ==> c.client.updateMap == map[];
  }

  lemma LeaveAbortFields(c: Ctx, ret: Ret)
    ensures var d := LeaveAbort(c, ret);
            d == c.(phase := None, recv := {}, client := c.client.Reset(), epoch := d.epoch, tainted := d.tainted,
                    returned := AbortReturn(c, ret == NormalReturn))
  {
    hide AbortReturn, Onward, WithinCall;
  }

  lemma LeaveAbortRest(c: Ctx, ret: Ret)
    requires ClientInv(c) && c.client.Valid() && CallInv(c) && c.phase == Some(ABORT_OP)
    ensures ClientInv(LeaveAbort(c, ret)) && LeaveAbort(c, ret).client.Valid() && CallInv(LeaveAbort(c, ret))
  {
    LeaveAbortFields(c, ret);
    hide LeaveAbort, CurrentTxn, CloseSafe, Floor;
  }

  lemma LeaveCloseCtx(c: Ctx, ret: Ret)
    requires CtxInv(c) && c.phase == Some(CLOSE_OP)
    ensures CtxInv(LeaveClose(c, ret))
  {
    VoteIsEven(c);
    if ret == Again && !c.second {
      VoteStartsClear(c);
      SurvivedInv(c);
      StartPhaseInv(c.(survivors := c.recv), VOTE_OP);
    } else {
      EndedPhaseInv(c, LeaveClose(c, ret));
    }
    LeaveCloseRest(c, ret);
    hide PhaseInv, ClientInv, CallInv, LeaveClose;
  }

  lemma SurvivedInv(c: Ctx)
    requires PhaseInv(c) && Clear(c, VOTE_OP)
    ensures PhaseInv(c.(survivors := c.recv)) && Clear(c.(survivors := c.recv), VOTE_OP)
  {
    PhaseFrame(c, c.(survivors := c.recv));
    hide PhaseInv, Clear;
  }

  lemma LeaveCloseRest(c: Ctx, ret: Ret)
    requires ClientInv(c) && CallInv(c) && c.phase == Some(CLOSE_OP)
    ensures ClientInv(LeaveClose(c, ret)) && CallInv(LeaveClose(c, ret))
  {
    hide Clear, CloseSafe, Floor, Onward, WithinCall;
  }

  // The same for the nodes, one op at a time.

  lemma HeardInDecision(c: Ctx, s: NodeId)
    requires ClientInv(c) && Deciding(c) && s in c.recv && !c.second && c.phase.Some?
    ensures Floor(c, s) == c.epoch
  {
  }

  lemma LeaveOpenNode(c: Ctx, ret: Ret, s: NodeId, n: Node)
    requires CtxInv(c) && NodeInv(c, s, n) && c.phase == Some(OPEN_OP) && !LeaveOpen(c, ret).tainted
    requires ret == NormalReturn ==> s in c.recv
    ensures NodeInv(LeaveOpen(c, ret), s, n)
  {
    var d := LeaveOpen(c, ret);
    OpeningParts(c);
    if Deciding(c) && ret == NormalReturn {
      HeardInDecision(c, s);
      hide NodeInv, PhaseInv, ClientInv, CallInv;
      EndDecisionKeeps(c, EndDecision(c), s, n);
      NodeFrame(EndDecision(c), d, s, n);
    } else {
      hide NodeInv, PhaseInv, ClientInv, CallInv;
      EndedKeeps(c, d, s, n);
    }
  }

  lemma OpeningParts(c: Ctx)
    requires CtxInv(c) && c.phase == Some(OPEN_OP)
    ensures PhaseInv(c) && ClientInv(c) && c.client.Valid() && !c.second && c.returned == Nothing
  {
    hide PhaseInv;
  }

  lemma LeaveVoteNode(c: Ctx, ret: Ret, s: NodeId, n: Node)
    requires CtxInv(c) && NodeInv(c, s, n) && c.phase == Some(VOTE_OP)
    requires ret == NormalReturn ==> s in c.recv && Agreed(c.client)
    ensures NodeInv(LeaveVote(c, ret, true), s, n)
  {
    hide *;
    VotingCtx(c);
    LeaveVoteShape(c);
    if ret == NormalReturn {
      AgreeKeeps(c, s, n);
    } else if ret == ErrorReturn {
      AbortKeeps(c, s, n);
    } else {
      AskKeeps(c, c.(asked := false), s, n);
    }
  }

  lemma LeaveVoteShape(c: Ctx)
    requires c.client.Valid()
    ensures LeaveVote(c, ErrorReturn, true) == BeginDecision(c, ABORT_OP)
    ensures LeaveVote(c, Again, true) == c.(asked := false)
  {
    hide BeginDecision, CurrentTxn;
  }

  /** Whether the request has been sent is of no concern to the servers. */
  lemma AskKeeps(c: Ctx, d: Ctx, s: NodeId, n: Node)
    requires NodeInv(c, s, n) && d == c.(asked := d.asked)
    ensures NodeInv(d, s, n)
  {
    CoreFrame(c, d, s, n, n);
    hide Core;
    assert CloseFresh(d, s) == CloseFresh(c, s);
  }

  lemma EndedCommit(c: Ctx, d: Ctx)
    requires CtxInv(c) && c.phase == Some(COMMIT_OP) && d == EndDecision(c.(client := c.client.Reset()))
    ensures d.phase.None? && d.client.updateId == 0 && d.client.Valid() && d.returned == Nothing
    ensures d.phase != Some(VOTE_OP)
    ensures d == EndDecision(c).(client := d.client) && d.client == c.client.Reset() && !c.second
  {
    RunningCommit(c);
    hide CtxInv;
  }

  lemma LeaveCommitNode(c: Ctx, s: NodeId, n: Node)
    requires CtxInv(c) && NodeInv(c, s, n) && c.phase == Some(COMMIT_OP) && s in c.recv && c.recv == c.client.serverIds
    ensures NodeInv(LeaveCommit(c, NormalReturn), s, n)
  {
    var d := EndDecision(c.(client := c.client.Reset()));
    CommitEnds(c);
    EndedCommit(c, d);
    CtxPieces(c);
    HeardInDecision(c, s);
    LeaveCommitShape(c);
    hide *;
    EndDecisionKeeps(c, d, s, n);
    if c.call == CLOSE_OP {
      EndDecisionInv(c, d);
      HistoryPart(d);
      SecondPassKeeps(d, c.survivors, s, n);
    } else {
      ReturnedView(d, COMMIT_OP);
      NodeFrame(d, LeaveCommit(c, NormalReturn), s, n);
    }
  }

  lemma LeaveCommitShape(c: Ctx)
    ensures var d := EndDecision(c.(client := c.client.Reset()));
            LeaveCommit(c, NormalReturn) == if c.call == CLOSE_OP then
              StartPhase(d, CLOSE_OP).(recv := c.survivors, second := true)
                                            else d.(returned := Returned(COMMIT_OP, true))
  {
  }

  lemma ReturnedView(d: Ctx, op: Op)
    ensures SameView(d, d.(returned := Returned(op, true)))
    ensures (op != CLOSE_OP ==> !ClosedWithoutCommit(d.(returned := Returned(op, true))))
  {
  }

  /** The second CLOSE pass, with the set that survived the first: nothing is cached. */
  lemma SecondPassKeeps(d: Ctx, survivors: set<NodeId>, s: NodeId, n: Node)
    requires History(d) && NodeInv(d, s, n) && d.phase.None? && d.client.updateId == 0 && d.client.Valid()
    requires d.returned == Nothing
    ensures NodeInv(StartPhase(d, CLOSE_OP).(recv := survivors, second := true), s, n)
  {
    var b := StartPhase(d, CLOSE_OP);
    var e := b.(recv := survivors, second := true);
    ClosingPart(d, s, n);
    NothingToFind(d, s, n);
    StartCore(d, CLOSE_OP, s, n);
    CoreFrame(b, e, s, n, n);
    hide Core, CloseFresh, Clear, History;
  }

  lemma LeaveAbortNode(c: Ctx, ret: Ret, s: NodeId, n: Node)
    requires CtxInv(c) && NodeInv(c, s, n) && c.phase == Some(ABORT_OP) && !LeaveAbort(c, ret).tainted
    requires ret == NormalReturn ==> s in c.recv
    ensures NodeInv(LeaveAbort(c, ret), s, n)
  {
    AbortParts(c);
    LeaveAbortShape(c, ret);
    hide NodeInv, PhaseInv, ClientInv, CallInv;
    var d := LeaveAbort(c, ret);
    if Deciding(c) {
      HeardInDecision(c, s);
      var e := EndDecision(c).(client := c.client.Reset());
      EndDecisionKeeps(c, e, s, n);
      NodeFrame(e, d, s, n);
    } else {
      EndedKeeps(c, d, s, n);
    }
  }

  lemma LeaveAbortShape(c: Ctx, ret: Ret)
    requires c.client.Valid()
    ensures Deciding(c) && !LeaveAbort(c, ret).tainted ==>
              && ret == NormalReturn
              && LeaveAbort(c, ret) == EndDecision(c).(client := c.client.Reset(),
                                                       returned := Returned(c.call, c.call == ABORT_OP))
    ensures !Deciding(c) && c.client == c.client.Reset() ==> Ended(c, LeaveAbort(c, ret))
    ensures !ClosedWithoutCommit(LeaveAbort(c, ret))
  {
  }

  lemma LeaveCloseNode(c: Ctx, ret: Ret, s: NodeId, n: Node)
    requires CtxInv(c) && NodeInv(c, s, n) && c.phase == Some(CLOSE_OP)
    requires ret == NormalReturn ==> c.second || s in c.recv
    ensures NodeInv(LeaveClose(c, ret), s, n)
  {
    hide *;
    ClosingParts(c, s, n);
    ClosingPart(c, s, n);
    CoreParts(c, s, n);
    OnOwnLink(c, s, n);
    LeaveCloseShape(c, ret);
    if ret == Again && !c.second {
      VoteStartsClear(c);
      SurvivedInv(c);
      HistoryPart(c.(survivors := c.recv));
      SurvivedKeeps(c, s, n);
    } else {
      ClosedHere(c, ret, s);
      EndedKeeps(c, LeaveClose(c, ret), s, n);
    }
  }

  lemma ClosedHere(c: Ctx, ret: Ret, s: NodeId)
    requires CtxInv(c) && c.phase == Some(CLOSE_OP) && s in c.client.serverIds
    requires (ret == NormalReturn ==> c.second || s in c.recv)
    requires ret != Again || c.second
    requires !c.second && c.closeSafe ==> CloseFresh(c, s)
    ensures ClosedWithoutCommit(LeaveClose(c, ret)) ==> s in c.recv && CloseFresh(c, s)
    ensures !Deciding(c)
  {
    CtxPieces(c);
    VoteIsEven(c);
    hide CtxInv, PhaseInv, CloseFresh;
  }

  lemma LeaveCloseShape(c: Ctx, ret: Ret)
    ensures ret == Again && !c.second ==> LeaveClose(c, ret) == StartPhase(c.(survivors := c.recv), VOTE_OP)
    ensures ret != Again || c.second ==> Ended(c, LeaveClose(c, ret))
  {
    hide StartPhase;
  }

  lemma ClosingParts(c: Ctx, s: NodeId, n: Node)
    requires CtxInv(c) && NodeInv(c, s, n) && c.phase == Some(CLOSE_OP)
    ensures PhaseInv(c) && Calm(c) && c.returned == Nothing && c.client.recvServerUpdateId == map[]
    ensures !c.second && c.closeSafe ==> CloseFresh(c, s)
  {
    VoteIsEven(c);
    assert s in c.client.serverIds by { ClosingPart(c, s, n); CoreParts(c, s, n); }
    hide PhaseInv, CloseFresh;
  }

  lemma SurvivedKeeps(c: Ctx, s: NodeId, n: Node)
    requires NodeInv(c, s, n) && History(c.(survivors := c.recv)) && Clear(c.(survivors := c.recv), VOTE_OP)
    requires c.returned == Nothing && c.client.recvServerUpdateId == map[] && c.phase == Some(CLOSE_OP)
    ensures NodeInv(StartPhase(c.(survivors := c.recv), VOTE_OP), s, n)
  {
    hide *;
    SurvivedNode(c, s, n);
    StartKeeps(c.(survivors := c.recv), VOTE_OP, s, n);
  }

  lemma SurvivedNode(c: Ctx, s: NodeId, n: Node)
    requires NodeInv(c, s, n) && c.phase == Some(CLOSE_OP)
    ensures NodeInv(c.(survivors := c.recv), s, n)
  {
    var e := c.(survivors := c.recv);
    CoreFrame(c, e, s, n, n);
    assert CloseFresh(e, s) == CloseFresh(c, s);
    hide Core, CloseFresh;
  }

  /** What an untainted end of a phase says about the return of `execute`. */
  lemma UntaintedLeave(c: Ctx, ret: Ret, checked: bool)
    requires c.client.Valid() && c.phase.Some? && c.phase.value != INIT_OP
    ensures var d := Leave(c, ret, checked);
            && d.client.serverIds == c.client.serverIds && d.client.numServers == c.client.numServers
            && (c.phase == Some(COMMIT_OP) && ret != NormalReturn ==> d.tainted)
            && (c.phase == Some(VOTE_OP) && ret == NormalReturn && !checked ==> d.tainted)
            && (c.phase == Some(VOTE_OP) && !d.tainted ==> d == LeaveVote(c, ret, true))
  {
    hide BeginDecision, CurrentTxn, LeaveOpen, LeaveAbort, LeaveClose;
    if c.phase == Some(VOTE_OP) && ret == NormalReturn && checked {
      assert LeaveVote(c, ret, checked) == LeaveVote(c, ret, true);
    }
  }

  lemma LeaveCtx(c: Ctx, ret: Ret, checked: bool)
    requires CtxInv(c) && c.phase.Some? && !Leave(c, ret, checked).tainted
    requires ret == NormalReturn ==> c.recv == c.client.serverIds
    requires ret != NormalReturn && c.phase == Some(OPEN_OP) ==> c.client.serverIds != {}
    ensures CtxInv(Leave(c, ret, checked))
  {
    UntaintedLeave(c, ret, checked);
    CtxPieces(c);
    hide CtxInv, LeaveOpen, LeaveVote, LeaveCommit, LeaveAbort, LeaveClose;
    match c.phase.value {
      case OPEN_OP => LeaveOpenCtx(c, ret);
      case VOTE_OP => LeaveVoteCtx(c, ret);
      case COMMIT_OP => LeaveCommitCtx(c);
      case ABORT_OP => LeaveAbortCtx(c, ret);
      case CLOSE_OP => LeaveCloseCtx(c, ret);
    }
  }

  /** A phase that ends without leaving the assumptions. */
  lemma LeaveKeeps(c: Ctx, nodes: map<NodeId, Node>, ret: Ret, checked: bool)
    requires CtxInv(c) && NodesInv(c, nodes) && c.phase.Some? && nodes.Keys == c.client.serverIds
    requires ret == NormalReturn ==> c.recv == c.client.serverIds
    requires ret != NormalReturn && c.phase == Some(OPEN_OP) ==> c.client.serverIds != {}
    requires ret == NormalReturn && checked && c.phase == Some(VOTE_OP) ==> Agreed(c.client)
    requires !Leave(c, ret, checked).tainted
    ensures CtxInv(Leave(c, ret, checked)) && NodesInv(Leave(c, ret, checked), nodes)
  {
    CtxPieces(c);
    hide NodeInv, CtxInv, Leave;
    LeaveCtx(c, ret, checked);
    forall s | s in nodes
      ensures NodeInv(Leave(c, ret, checked), s, nodes[s])
    {
      assert NodeInv(c, s, nodes[s]) && (ret == NormalReturn ==> s in c.recv);
      LeaveNode(c, ret, checked, s, nodes[s]);
    }
  }

  lemma LeaveNode(c: Ctx, ret: Ret, checked: bool, s: NodeId, n: Node)
    requires CtxInv(c) && NodeInv(c, s, n) && c.phase.Some?
    requires ret == NormalReturn ==> s in c.recv && c.recv == c.client.serverIds
    requires ret == NormalReturn && checked && c.phase == Some(VOTE_OP) ==> Agreed(c.client)
    requires !Leave(c, ret, checked).tainted
    ensures NodeInv(Leave(c, ret, checked), s, n)
  {
    UntaintedLeave(c, ret, checked);
    CtxPieces(c);
    hide CtxInv, NodeInv, LeaveOpen, LeaveVote, LeaveCommit, LeaveAbort, LeaveClose;
    match c.phase.value {
      case OPEN_OP => LeaveOpenNode(c, ret, s, n);
      case VOTE_OP => LeaveVoteNode(c, ret, s, n);
      case COMMIT_OP => LeaveCommitNode(c, s, n);
      case ABORT_OP => LeaveAbortNode(c, ret, s, n);
      case CLOSE_OP => LeaveCloseNode(c, ret, s, n);
    }
  }

  // --------------------------------------------------------------------------- the calls

  /** The client's side of an OPEN call before its phase begins. */
  function Naming(c: Ctx): Ctx {
    c.(returned := Nothing, call := OPEN_OP, fd := c.nextFd, nextFd := GetNextNum(c.nextFd))
  }

  lemma OpenCallShape(c: Ctx, name: Name)
    ensures CallOpenCtx(c, name) == if name == c.fileName then StartPhase(Naming(c), OPEN_OP)
                                    else BeginDecision(Naming(c).(prevName := c.fileName, fileName := name), OPEN_OP)
    ensures SameView(c, Naming(c)) && Naming(c).returned == Nothing && Naming(c).isFileOpen == c.isFileOpen
    ensures Deciding(Naming(c)) == Deciding(c)
  {
  }

  /** An unfinished OPEN under one name makes an OPEN under another unclear. */
  lemma LimboIsUnclear(c: Ctx)
    requires PhaseInv(c) && c.phase.None? && Deciding(c)
    ensures !Clear(c, OPEN_OP) && !c.isFileOpen
  {
    var s :| s in c.client.serverIds;
    assert c.phases[c.begun].op == OPEN_OP && Heard(c, s) <= c.begun;
    assert !FreshFrom(c, s, OPEN_OP);
  }

  lemma NewNameIsClear(c: Ctx, name: Name)
    requires name != c.fileName && !CallOpenCtx(c, name).tainted
    ensures Clear(c, OPEN_OP)
  {
    ClearFrame(c, Naming(c).(prevName := c.fileName, fileName := name), OPEN_OP);
    hide Clear;
  }

  lemma NamedInv(e: Ctx, name: Name)
    requires PhaseInv(e) && Clear(e, OPEN_OP)
    ensures var d := e.(prevName := e.fileName, fileName := name); PhaseInv(d) && Clear(d, OPEN_OP)
  {
    var d := e.(prevName := e.fileName, fileName := name);
    HistoryFrame(e, d);
    OnlyFrame(e, d);
    ClearFrame(e, d, OPEN_OP);
    hide History, OnlyDecision, Clear;
    assert forall s :: Floor(d, s) == Floor(e, s);
  }

  lemma OpenCtx(c: Ctx, name: Name)
    requires CtxInv(c) && c.phase.None? && !CallOpenCtx(c, name).tainted
    ensures CtxInv(CallOpenCtx(c, name)) && (name != c.fileName ==> Clear(c, OPEN_OP) && !Deciding(c))
  {
    var e := Naming(c);
    OpenCallShape(c, name);
    PhaseFrame(c, e);
    NamedRest(c, name);
    if name == c.fileName {
      StartPhaseInv(e, OPEN_OP);
    } else {
      NewNameIsClear(c, name);
      if Deciding(c) {
        LimboIsUnclear(c);
      }
      NamedInv(e, name);
      BeginDecisionInv(e.(prevName := c.fileName, fileName := name), OPEN_OP);
    }
    hide PhaseInv, ClientInv, CallInv, Clear, CallOpenCtx;
  }

  lemma NamedRest(c: Ctx, name: Name)
    requires ClientInv(c) && CallInv(c) && c.phase.None?
    ensures ClientInv(CallOpenCtx(c, name)) && CallInv(CallOpenCtx(c, name))
  {
    BeginFields(Naming(c), OPEN_OP);
    BeginFields(Naming(c).(prevName := c.fileName, fileName := name), OPEN_OP);
    hide StartPhase, BeginDecision, CloseSafe, Floor, Onward, WithinCall;
  }

  lemma OpenStep(c: Ctx, nodes: map<NodeId, Node>, name: Name)
    requires CtxInv(c) && NodesInv(c, nodes) && c.phase.None? && !CallOpenCtx(c, name).tainted
    ensures CtxInv(CallOpenCtx(c, name)) && NodesInv(CallOpenCtx(c, name), nodes)
  {
    OpenCtx(c, name);
    CtxPieces(c);
    hide NodeInv, CtxInv, PhaseInv, ClientInv, CallInv, Clear, CallOpenCtx;
    forall s | s in nodes
      ensures NodeInv(CallOpenCtx(c, name), s, nodes[s])
    {
      OpenNode(c, name, s, nodes[s]);
    }
  }

  lemma OpenNode(c: Ctx, name: Name, s: NodeId, n: Node)
    requires CtxInv(c) && NodeInv(c, s, n) && c.phase.None?
    requires name != c.fileName ==> Clear(c, OPEN_OP) && !Deciding(c)
    ensures NodeInv(CallOpenCtx(c, name), s, n)
  {
    var e := Naming(c);
    OpenCallShape(c, name);
    PhaseFrame(c, e);
    HistoryPart(e);
    NothingRecorded(c);
    hide NodeInv, CtxInv, PhaseInv, ClientInv, CallInv, Clear, SameView, History;
    NoReturn(e);
    NodeFrame(c, e, s, n);
    if name == c.fileName {
      StartKeeps(e, OPEN_OP, s, n);
    } else {
      OpenKeeps(e, name, s, n);
    }
  }

  lemma NoReturn(e: Ctx)
    requires e.returned == Nothing
    ensures !ClosedWithoutCommit(e)
  {
  }

  lemma NothingRecorded(c: Ctx)
    requires CtxInv(c) && c.phase.None?
    ensures c.client.recvServerUpdateId == map[] && c.client.Valid()
  {
    hide PhaseInv;
  }

  lemma WriteStep(c: Ctx, nodes: map<NodeId, Node>, u: Update)
    requires CtxInv(c) && NodesInv(c, nodes) && c.phase.None? && c.isFileOpen && c.client.updateId < MAX_UINT32
    ensures var d := CallWriteCtx(c, u);
            CtxInv(d) && NodesInv(d, Multicast(nodes, [WriteBlock(c.fd, c.client.updateId, u)], c.epoch, c.begun))
  {
    hide *;
    var d, m := CallWriteCtx(c, u), WriteBlock(c.fd, c.client.updateId, u);
    OutsidePhase(c);
    WriteCtx(c, u);
    WrittenOk(c, u);
    CtxPieces(d);
    HistoryPart(c);
    HistoryPart(d);
    WriteShape(c, u);
    WrittenNodes(c, d, nodes, u, m);
    MulticastKeeps(d, nodes, [m]);
  }

  lemma WrittenNodes(c: Ctx, d: Ctx, nodes: map<NodeId, Node>, u: Update, m: Message)
    requires History(c) && c.client.Valid() && c.phase.None? && !Deciding(c) && NodesInv(c, nodes)
    requires d == c.(client := d.client, returned := Nothing, wrote := c.begun)
    requires d.client == c.client.(updateMap := c.client.updateMap[c.client.updateId := u],
                                   updateId := c.client.updateId + 1)
    requires DownMsgOk(d, Tagged(m, d.epoch, d.begun)) && m.WriteBlock?
    ensures NodesInv(d, nodes) && forall s | s in nodes :: MaySend(d, nodes[s], m)
  {
    hide NodeInv, History, DownMsgOk;
    forall s | s in nodes
      ensures NodeInv(d, s, nodes[s]) && MaySend(d, nodes[s], m)
    {
      WriteKeeps(c, s, nodes[s], d, u);
    }
  }

  lemma OutsidePhase(c: Ctx)
    requires CtxInv(c) && c.phase.None? && c.isFileOpen
    ensures PhaseInv(c) && !Deciding(c) && Calm(c) && c.client.Valid()
  {
    hide History, OnlyDecision, HeardSince;
  }

  lemma WriteShape(c: Ctx, u: Update)
    requires c.client.updateId < MAX_UINT32
    ensures var d := CallWriteCtx(c, u);
            && d == c.(client := d.client, returned := Nothing, wrote := c.begun)
            && d.client == c.client.(updateMap := c.client.updateMap[c.client.updateId := u],
                                     updateId := c.client.updateId + 1)
  {
  }

  lemma WrittenOk(c: Ctx, u: Update)
    requires !Deciding(c) && c.client.updateId < MAX_UINT32
    ensures DownMsgOk(CallWriteCtx(c, u), Tagged(WriteBlock(c.fd, c.client.updateId, u), c.epoch, c.begun))
  {
  }

  lemma WriteCtx(c: Ctx, u: Update)
    requires CtxInv(c) && c.phase.None? && c.client.updateId < MAX_UINT32
    ensures CtxInv(CallWriteCtx(c, u))
  {
    var d := CallWriteCtx(c, u);
    WrittenPhase(c, d);
    hide PhaseInv, CloseSafe, Floor;
  }

  lemma WrittenPhase(c: Ctx, d: Ctx)
    requires PhaseInv(c) && d == c.(client := d.client, returned := Nothing, wrote := c.begun)
    requires d.client.serverIds == c.client.serverIds
    ensures PhaseInv(d)
  {
    WrittenHistory(c, d);
    OnlyFrame(c, d);
    hide History, OnlyDecision;
    assert forall s :: Floor(d, s) == Floor(c, s);
    hide Floor;
  }

  lemma WrittenHistory(c: Ctx, d: Ctx)
    requires History(c) && d == c.(client := d.client, returned := Nothing, wrote := c.begun)
    requires d.client.serverIds == c.client.serverIds
    ensures History(d)
  {
  }

  lemma CalledView(c: Ctx, call: Op)
    requires c.client.Valid()
    ensures SameView(c, Called(c, call)) && Called(c, call).isFileOpen == c.isFileOpen
    ensures Called(c, call).returned == Nothing
    ensures Called(c, call).client == c.client && Called(c, call).phase == c.phase
    ensures Deciding(Called(c, call)) == Deciding(c)
  {
    hide CloseSafe, CurrentTxn;
  }

  lemma CallPhase(c: Ctx, call: Op)
    requires CtxInv(c) && c.phase.None? && c.isFileOpen && (call == COMMIT_OP || call == ABORT_OP || call == CLOSE_OP)
    requires !CallCtx(c, call).tainted
    ensures PhaseInv(CallCtx(c, call))
    ensures call == COMMIT_OP ==> Clear(Called(c, call), VOTE_OP)
    ensures call == ABORT_OP && c.client.updateId != 0 ==> Clear(Called(c, call), ABORT_OP)
  {
    var e := Called(c, call);
    OutsidePhase(c);
    CalledView(c, call);
    PhaseFrame(c, e);
    hide PhaseInv, Clear, ClientInv, CallInv, Called;
    if call == ABORT_OP && c.client.updateId != 0 {
      UntaintedClear(e, ABORT_OP);
      BeginDecisionInv(e, ABORT_OP);
    } else if call == COMMIT_OP {
      VoteStartsClear(e) by { CalmFrame(c, e); }
      StartPhaseInv(e, VOTE_OP);
    } else {
      StartPhaseInv(e, call);
    }
  }

  lemma CalmFrame(c: Ctx, e: Ctx)
    requires Calm(c) && e.epoch == c.epoch && e.phase == c.phase
    ensures Calm(e)
  {
  }

  lemma CallFields(c: Ctx, call: Op)
    requires c.client.Valid() && (call == COMMIT_OP || call == ABORT_OP || call == CLOSE_OP)
    ensures var d := CallCtx(c, call);
            && d.client == c.client && d.phase == Some(if call == COMMIT_OP then VOTE_OP else call) && d.recv == {}
            && !d.second && d.log == c.log && d.callLog == |c.log| && d.callTxn == CurrentTxn(c)
              && d.returned == Nothing
            && d.call == call && d.closeSafe == CloseSafe(c) && d.survivors == c.survivors && d.fileName == c.fileName
            && (d.epoch == if call == ABORT_OP && c.client.updateId != 0 then c.epoch + 1 else c.epoch)
  {
    BeginFields(Called(c, call), ABORT_OP);
    BeginFields(Called(c, call), if call == COMMIT_OP then VOTE_OP else call);
    hide StartPhase, BeginDecision, CloseSafe, CurrentTxn, Onward, WithinCall;
  }

  lemma CalledRest(c: Ctx, call: Op)
    requires ClientInv(c) && CallInv(c) && c.phase.None? && !Deciding(c) && c.wrote < |c.phases|
    requires call == COMMIT_OP || call == ABORT_OP || call == CLOSE_OP
    ensures ClientInv(CallCtx(c, call)) && CallCtx(c, call).client.Valid() && CallInv(CallCtx(c, call))
  {
    assert c.client.Valid();
    CallFields(c, call);
    if call == CLOSE_OP {
      SafeCloseCall(c);
    }
    hide CallCtx, CloseSafe, Floor;
    CalledClient(c, CallCtx(c, call), call);
    hide ClientInv;
  }

  lemma CalledClient(c: Ctx, d: Ctx, call: Op)
    requires ClientInv(c) && c.phase.None? && !Deciding(c) && d.client == c.client && d.recv == {}
    requires call == COMMIT_OP || call == ABORT_OP || call == CLOSE_OP
    requires d.phase == Some(if call == COMMIT_OP then VOTE_OP else call)
    requires d.epoch == if call == ABORT_OP && c.client.updateId != 0 then c.epoch + 1 else c.epoch
    ensures ClientInv(d)
  {
    hide Floor;
  }

  lemma SafeCloseCall(c: Ctx)
    requires c.client.Valid() && c.wrote < |c.phases|
    ensures CloseSafe(c) ==> CloseSafe(CallCtx(c, CLOSE_OP))
  {
    var e := Called(c, CLOSE_OP);
    assert forall s :: CloseFresh(e, s) == CloseFresh(c, s);
    CloseStaysSafe(e, CLOSE_OP);
    hide CloseFresh, Clear;
  }

  /** A new CLOSE comes after the latest block. */
  lemma CloseStaysSafe(e: Ctx, op: Op)
    requires e.wrote < |e.phases|
    ensures CloseSafe(e) ==> CloseSafe(StartPhase(e, op))
  {
    forall s | CloseFresh(e, s)
      ensures CloseFresh(StartPhase(e, op), s)
    {
      var d := StartPhase(e, op);
      var k := FirstFrom(d.phases, Heard(d, s), CLOSE_OP);
      assert Heard(d, s) == Heard(e, s);
      if k < |e.phases| {
        assert d.phases[k] == e.phases[k];
      }
    }
    hide CloseFresh, Clear;
  }

  lemma CallStepCtx(c: Ctx, call: Op)
    requires CtxInv(c) && c.phase.None? && c.isFileOpen && (call == COMMIT_OP || call == ABORT_OP || call == CLOSE_OP)
    requires !CallCtx(c, call).tainted
    ensures CtxInv(CallCtx(c, call))
  {
    CallPhase(c, call);
    OutsidePhase(c);
    WroteBefore(c);
    hide PhaseInv, CallCtx;
    CalledRest(c, call);
  }

  lemma WroteBefore(c: Ctx)
    requires PhaseInv(c)
    ensures c.wrote < |c.phases|
  {
    hide OnlyDecision, HeardSince;
  }

  lemma CallNode(c: Ctx, call: Op, s: NodeId, n: Node)
    requires CtxInv(c) && NodeInv(c, s, n) && c.phase.None? && c.isFileOpen && !CallCtx(c, call).tainted
    requires call == COMMIT_OP || call == ABORT_OP || call == CLOSE_OP
    ensures NodeInv(CallCtx(c, call), s, if call == CLOSE_OP then n.(held := false) else n)
  {
    var e := Called(c, call);
    var m := if call == CLOSE_OP then n.(held := false) else n;
    OutsidePhase(c);
    CalledView(c, call);
    CallPhase(c, call);
    PhaseFrame(c, e);
    HistoryPart(e);
    NothingRecorded(c);
    hide NodeInv, CtxInv, PhaseInv, ClientInv, CallInv, Clear, SameView, History, Called;
    NoReturn(e);
    NodeFrame(c, e, s, n);
    UnheldKeeps(e, s, n);
    if call == ABORT_OP && c.client.updateId != 0 {
      AbortKeeps(e, s, m);
    } else {
      StartKeeps(e, if call == COMMIT_OP then VOTE_OP else call, s, m);
    }
  }

  lemma UnheldKeeps(e: Ctx, s: NodeId, n: Node)
    requires NodeInv(e, s, n) && e.phase.None?
    ensures NodeInv(e, s, n.(held := false))
  {
    CoreFrame(e, e, s, n, n.(held := false));
    hide Core;
  }

  lemma CallStep(c: Ctx, nodes: map<NodeId, Node>, call: Op)
    requires CtxInv(c) && NodesInv(c, nodes) && c.phase.None? && c.isFileOpen && !CallCtx(c, call).tainted
    requires call == COMMIT_OP || call == ABORT_OP || call == CLOSE_OP
    ensures CtxInv(CallCtx(c, call)) && NodesInv(CallCtx(c, call), if call == CLOSE_OP then Unheld(nodes) else nodes)
  {
    CallStepCtx(c, call);
    CtxPieces(c);
    hide NodeInv, CtxInv, CallCtx;
    forall s | s in nodes
      ensures NodeInv(CallCtx(c, call), s, if call == CLOSE_OP then Unheld(nodes)[s] else nodes[s])
    {
      CallNode(c, call, s, nodes[s]);
    }
  }

  // --------------------------------------------------------------------------- the steps

  lemma StepOnLinks(st: State, step: Step)
    requires Sane(st) && Enabled(st, step) && Good(st.ctx, st.nodes)
    requires step.Lose? || step.Duplicate? || step.Reorder? || step.Deliver?
    ensures Good(Do(st, step).ctx, Do(st, step).nodes)
  {
    var c, nodes, s := st.ctx, st.nodes, step.s;
    var n := nodes[s];
    assert NodeInv(c, s, n);
    if step.Deliver? {
      DeliverKeeps(c, s, n);
      hide NodeInv, CtxInv, DeliverTo;
      UpdateNode(c, nodes, s, DeliverTo(c, n));
    } else {
      NetworkStepKeeps(c, s, n, step);
      hide NodeInv, CtxInv, NetworkStep;
      UpdateNode(c, nodes, s, NetworkStep(n, step));
    }
  }

  lemma StepCall(st: State, step: Step)
    requires Sane(st) && Enabled(st, step) && Good(st.ctx, st.nodes) && !Do(st, step).ctx.tainted
    requires step.CallOpen? || step.CallWrite? || step.CallCommit? || step.CallAbort? || step.CallClose?
    ensures Good(Do(st, step).ctx, Do(st, step).nodes)
  {
    hide NodeInv, CtxInv, CallOpenCtx, CallWriteCtx, CallCtx, Multicast, Unheld;
    var c, nodes := st.ctx, st.nodes;
    match step {
      case CallOpen(name) => OpenStep(c, nodes, name);
      case CallWrite(u) => WriteStep(c, nodes, u);
      case CallCommit => CallStep(c, nodes, COMMIT_OP);
      case CallAbort => CallStep(c, nodes, ABORT_OP);
      case CallClose => CallStep(c, nodes, CLOSE_OP);
    }
  }

  lemma DoRepeat(st: State)
    requires Sane(st) && Running(st.ctx)
    ensures Enabled(st, Repeat)
    ensures Do(st, Repeat) == State(st.ctx.(asked := true),
                                    Multicast(st.nodes, [Asking(st.ctx)], st.ctx.epoch, st.ctx.begun))
  {
    hide Multicast;
  }

  /** The request that the running phase repeats. */
  function Asking(c: Ctx): Message
    requires c.phase.Some?
  {
    Request(c.phase.value, c.fd, c.fileName)
  }

  lemma RequestKeeps(c: Ctx, nodes: map<NodeId, Node>)
    requires CtxInv(c) && NodesInv(c, nodes) && c.phase.Some?
    ensures NodesInv(c, Multicast(nodes, [Asking(c)], c.epoch, c.begun))
  {
    CtxPieces(c);
    HistoryPart(c);
    hide NodeInv, CtxInv, PhaseInv, ClientInv, CallInv, MaySend, Multicast, History;
    forall s | s in nodes
      ensures MaySend(c, nodes[s], Asking(c))
    {
      RequestMayBeSent(c, s, nodes[s]);
    }
    MulticastKeeps(c, nodes, [Asking(c)]);
  }

  lemma RepeatKeeps(c: Ctx, nodes: map<NodeId, Node>)
    requires CtxInv(c) && NodesInv(c, nodes) && c.phase.Some?
    ensures CtxInv(c.(asked := true))
    ensures NodesInv(c.(asked := true), Multicast(nodes, [Asking(c)], c.epoch, c.begun))
  {
    hide *;
    AskAgain(c, c.(asked := true));
    RequestKeeps(c, nodes);
    AskNodes(c, Multicast(nodes, [Asking(c)], c.epoch, c.begun));
  }

  lemma AskNodes(c: Ctx, nodes: map<NodeId, Node>)
    requires NodesInv(c, nodes)
    ensures NodesInv(c.(asked := true), nodes)
  {
    hide NodeInv;
    forall s | s in nodes
      ensures NodeInv(c.(asked := true), s, nodes[s])
    {
      AskKeeps(c, c.(asked := true), s, nodes[s]);
    }
  }

  lemma IsRunning(st: State, step: Step)
    requires Enabled(st, step) && (step.Repeat? || step.Receive? || step.ReceiveForeign? || step.TimeOut?)
    ensures Running(st.ctx) && st.ctx.phase.Some? && st.ctx.phase.value != INIT_OP
    ensures !step.Repeat? ==> st.ctx.asked
  {
  }

  lemma StepRepeat(st: State, step: Step)
    requires Sane(st) && Enabled(st, step) && Good(st.ctx, st.nodes) && step.Repeat?
    ensures Good(Do(st, step).ctx, Do(st, step).nodes)
  {
    hide *;
    IsRunning(st, step);
    DoRepeat(st);
    GoodMeans(st.ctx, st.nodes);
    RepeatKeeps(st.ctx, st.nodes);
    MakesGood(st.ctx.(asked := true), Multicast(st.nodes, [Asking(st.ctx)], st.ctx.epoch, st.ctx.begun));
  }

  /** An error at the deadline means that some server is missing. */
  lemma FinishFits(c: Ctx)
    requires ClientInv(c) && c.phase.Some? && c.phase.value != INIT_OP
    ensures var ret := Finish(c.client, c.phase.value, c.recv);
            (ret == NormalReturn ==> c.recv == c.client.serverIds) && (ret != NormalReturn ==> c.client.serverIds != {})
  {
    SubsetCardinalityOf(c);
  }

  lemma DoTimeOut(st: State)
    requires Sane(st) && Running(st.ctx) && st.ctx.asked
    ensures Enabled(st, TimeOut)
    ensures Do(st, TimeOut) == State(Leave(st.ctx, Finish(st.ctx.client, st.ctx.phase.value, st.ctx.recv), false),
                                     st.nodes)
  {
    hide Leave;
  }

  lemma AsMember(st: State)
    requires Members(st)
    ensures st.nodes.Keys == st.ctx.client.serverIds
  {
  }

  /** No packet before the deadline. */
  lemma StepTimeOut(st: State, step: Step)
    requires Sane(st) && Enabled(st, step) && Members(st) && Good(st.ctx, st.nodes) && !Do(st, step).ctx.tainted
    requires step.TimeOut?
    ensures Good(Do(st, step).ctx, Do(st, step).nodes)
  {
    hide *;
    var c := st.ctx;
    IsRunning(st, step);
    DoTimeOut(st);
    GoodMeans(c, st.nodes);
    CtxPieces(c);
    FinishFits(c);
    AsMember(st);
    LeaveKeeps(c, st.nodes, Finish(c.client, c.phase.value, c.recv), false);
    MakesGood(Leave(c, Finish(c.client, c.phase.value, c.recv), false), st.nodes);
  }

  lemma ForeignReaction(c: Ctx, from: NodeId, m: Message)
    requires c.client.Valid() && c.phase.Some? && c.phase.value != INIT_OP && from !in c.client.serverIds
    ensures var (d, resend) := React(c, from, m);
            && resend == []
            && d == (if MatchesOp(m, c.phase.value) && |c.recv| == c.client.numServers
                     then Leave(c, NormalReturn, false) else c)
  {
    ForeignPacket(c.client, c.phase.value, c.recv, c.fd, from, m);
    ForeignIsUnread(c, from, m);
    ReactReceive(c, from, m, OnPacket(c.client, c.phase.value, c.recv, c.fd, from, m), AfterPacket(c, from, m));
    hide OnPacket, Leave, AfterPacket, React;
  }

  lemma ForeignIsUnread(c: Ctx, from: NodeId, m: Message)
    requires c.client.Valid() && c.phase.Some? && c.phase.value != INIT_OP && from !in c.client.serverIds
    ensures AfterPacket(c, from, m) == c
  {
    ForeignPacket(c.client, c.phase.value, c.recv, c.fd, from, m);
    assert HeardAfter(c, from, m, c.phase.value) == c.heard;
    hide OnPacket, HeardAfter;
    assert c.(client := c.client, recv := c.recv, heard := c.heard) == c;
  }

  lemma ForeignPacket(c: Client, op: Op, recv: set<NodeId>, fd: nat, from: NodeId, m: Message)
    requires c.Valid() && op != INIT_OP && from !in c.serverIds
    ensures OnPacket(c, op, recv, fd, from, m)
         == Reaction(c, recv, [], if MatchesOp(m, op) && |recv| == c.numServers then Some(NormalReturn) else None)
  {
  }

  lemma NothingSent(nodes: map<NodeId, Node>, epoch: nat, phase: nat)
    ensures Multicast(nodes, [], epoch, phase) == nodes
  {
    forall s | s in nodes
      ensures Multicast(nodes, [], epoch, phase)[s] == nodes[s]
    {
      assert nodes[s].down + Tag([], epoch, phase) == nodes[s].down;
    }
  }

  /** A packet of a server that is not in `serverIds`. */
  lemma ForeignKeeps(c: Ctx, nodes: map<NodeId, Node>, from: NodeId, m: Message)
    requires Good(c, nodes) && Running(c) && nodes.Keys == c.client.serverIds && from !in nodes
    requires !React(c, from, m).0.tainted
    ensures Good(React(c, from, m).0, Multicast(nodes, React(c, from, m).1, c.epoch, c.begun))
  {
    hide NodesInv, CtxInv, Leave, React, Multicast, MatchesOp;
    CtxPieces(c);
    ForeignReaction(c, from, m);
    SubsetCardinalityOf(c);
    NothingSent(nodes, c.epoch, c.begun);
    if React(c, from, m).0 != c {
      LeaveKeeps(c, nodes, NormalReturn, false);
    }
  }

  lemma DoForeign(st: State, step: Step)
    requires Sane(st) && Enabled(st, step) && Members(st) && step.ReceiveForeign?
    ensures Running(st.ctx) && st.ctx.asked && st.ctx.client.Valid()
    ensures st.nodes.Keys == st.ctx.client.serverIds && step.from !in st.nodes
    ensures var (d, resend) := React(st.ctx, step.from, step.m);
            Do(st, step) == State(d, Multicast(st.nodes, resend, st.ctx.epoch, st.ctx.begun))
  {
    hide React, Multicast;
  }

  lemma StepForeign(st: State, step: Step)
    requires Sane(st) && Enabled(st, step) && Members(st) && Good(st.ctx, st.nodes) && !Do(st, step).ctx.tainted
    requires step.ReceiveForeign?
    ensures Good(Do(st, step).ctx, Do(st, step).nodes)
  {
    hide *;
    DoForeign(st, step);
    ForeignKeeps(st.ctx, st.nodes, step.from, step.m);
  }

  lemma SubsetCardinalityOf(c: Ctx)
    ensures ClientInv(c) ==> |c.recv| <= c.client.numServers
    ensures ClientInv(c) && |c.recv| == c.client.numServers ==> c.recv == c.client.serverIds
  {
    if ClientInv(c) {
      SubsetCardinality(c.recv, c.client.serverIds);
    }
  }

  lemma VotePacketReaction(c: Client, recv: set<NodeId>, fd: nat, s: NodeId, v: nat)
    requires c.Valid() && s in c.serverIds
    ensures var a := OnVoteAck(c, recv, fd, s, 0, v);
            && a.client == c.(recvServerUpdateId := c.recvServerUpdateId[s := v]) && a.recv == recv + {s}
            && (a.exit == Some(NormalReturn) ==> |a.recv| == c.numServers)
            && a.exit != Some(ErrorReturn)
            && (a.resend != [] ==> a.exit == Some(Again))
            && (a.exit == Some(Again) ==> a.resend == Resend(a.client, fd, Smallest(a.client.recvServerUpdateId)))
  {
  }

  lemma PlainPacketReaction(c: Client, op: Op, recv: set<NodeId>, fd: nat, s: NodeId, m: Message)
    requires c.Valid() && s in c.serverIds && op != INIT_OP && op != VOTE_OP && MatchesOp(m, op)
    requires m.fileDesc == 0 || (m.fileDesc == 1 && m.CloseAck?)
    ensures OnPacket(c, op, recv, fd, s, m)
         == if m.fileDesc == 1 then Reaction(c, recv, [], Some(Again)) else BreakIfFull(c, recv + {s})
  {
  }

  lemma MatchedAck(m: Message, op: Op)
    requires op != INIT_OP && IsAck(m)
    ensures MatchesOp(m, op) <==> OpOf(m) == Some(op)
  {
  }

  /** What the first answer on a member's link does to the running phase. */
  lemma MemberPacket(c: Ctx, s: NodeId, n: Node)
    requires c.client.Valid() && s in c.client.serverIds && c.phase.Some? && c.phase.value != INIT_OP
    requires n.up != [] && UpMsgOk(c, n.server, n.up[0])
    ensures var a := OnPacket(c.client, c.phase.value, c.recv, c.fd, s, n.up[0].msg);
            var d := AfterPacket(c, s, n.up[0].msg);
            && (d == c || Counting(c, d, s, n))
            && (a.exit == Some(NormalReturn) ==> |d.recv| == c.client.numServers)
            && a.exit != Some(ErrorReturn)
            && (a.resend != [] ==> c.phase == Some(VOTE_OP) && a.exit == Some(Again))
            && (a.resend != [] ==> a.resend == Resend(d.client, c.fd, Smallest(d.client.recvServerUpdateId)))
  {
    MatchedAck(n.up[0].msg, c.phase.value);
    if !MatchesOp(n.up[0].msg, c.phase.value) {
      assert AfterPacket(c, s, n.up[0].msg) == c;
    } else if c.phase == Some(VOTE_OP) {
      VoteMember(c, s, n);
    } else {
      PlainMember(c, s, n);
    }
    hide OnPacket, AfterPacket, Counting, MatchesOp, UpMsgOk;
  }

  lemma VoteMember(c: Ctx, s: NodeId, n: Node)
    requires c.client.Valid() && s in c.client.serverIds && c.phase == Some(VOTE_OP)
    requires n.up != [] && UpMsgOk(c, n.server, n.up[0]) && n.up[0].msg.VoteAck?
    ensures var a := OnPacket(c.client, VOTE_OP, c.recv, c.fd, s, n.up[0].msg);
            var d := AfterPacket(c, s, n.up[0].msg);
            && Counting(c, d, s, n)
            && (a.exit == Some(NormalReturn) ==> |d.recv| == c.client.numServers)
            && a.exit != Some(ErrorReturn)
            && (a.resend != [] ==> a.exit == Some(Again))
            && (a.resend != [] ==> a.resend == Resend(d.client, c.fd, Smallest(d.client.recvServerUpdateId)))
  {
    VotePacketReaction(c.client, c.recv, c.fd, s, n.up[0].msg.updateId);
    hide OnVoteAck, Smallest, Resend;
  }

  lemma PlainMember(c: Ctx, s: NodeId, n: Node)
    requires c.client.Valid() && s in c.client.serverIds && c.phase.Some? && c.phase.value != INIT_OP
    requires c.phase != Some(VOTE_OP)
    requires n.up != [] && UpMsgOk(c, n.server, n.up[0]) && MatchesOp(n.up[0].msg, c.phase.value)
    ensures var a := OnPacket(c.client, c.phase.value, c.recv, c.fd, s, n.up[0].msg);
            var d := AfterPacket(c, s, n.up[0].msg);
            && Counting(c, d, s, n)
            && (a.exit == Some(NormalReturn) ==> |d.recv| == c.client.numServers)
            && a.exit != Some(ErrorReturn) && a.resend == []
  {
    MatchedAck(n.up[0].msg, c.phase.value);
    PlainPacketReaction(c.client, c.phase.value, c.recv, c.fd, s, n.up[0].msg);
    hide OnPacket, MatchesOp;
  }

  /** A vote phase left with a normal return was left through the check. */
  lemma NormalVoteIsAgreed(c: Client, recv: set<NodeId>, fd: nat, s: NodeId, v: nat)
    requires c.Valid() && VoteEntry(c, recv) && s in c.serverIds
    requires OnVoteAck(c, recv, fd, s, 0, v).exit == Some(NormalReturn)
    ensures Agreed(OnVoteAck(c, recv, fd, s, 0, v).client)
  {
    SubsetCardinality(recv + {s}, c.serverIds);
  }

  lemma CountingCtx(c: Ctx, d: Ctx, s: NodeId, n: Node)
    requires CtxInv(c) && s in c.client.serverIds && c.phase.Some? && n.up != []
    requires Counting(c, d, s, n)
    ensures CtxInv(d)
  {
    CountingMeans(c, d, s, n);
    hide *;
    CtxPieces(c);
    CountedKeys(c, d, s, n);
    CountCtx(c, d, s);
  }

  lemma CountingMeans(c: Ctx, d: Ctx, s: NodeId, n: Node)
    requires Counting(c, d, s, n)
    ensures CountedAck(c, d, s)
  {
  }

  lemma CountedKeys(c: Ctx, d: Ctx, s: NodeId, n: Node)
    requires ClientInv(c) && Counting(c, d, s, n)
    ensures c.phase != Some(VOTE_OP) ==> d.client == c.client
    ensures c.phase == Some(VOTE_OP) ==> d.client.recvServerUpdateId.Keys == d.recv
  {
  }

  lemma CountNodes(c: Ctx, d: Ctx, nodes: map<NodeId, Node>, s: NodeId)
    requires PhaseInv(c) && NodesInv(c, nodes) && s in nodes && nodes[s].up != [] && Counting(c, d, s, nodes[s])
    ensures NodesInv(d, nodes[s := nodes[s].(up := nodes[s].up[1..])])
  {
    var counted := CountedAck(c, d, s);
    var m := nodes[s].(up := nodes[s].up[1..]);
    assert counted && forall r | r in nodes :: NodeInv(c, r, nodes[r]) by { hide NodeInv; }
    hide *;
    CountKeeps(c, d, s, nodes[s]);
    forall r | r in nodes && r != s
      ensures NodeInv(d, r, nodes[r])
    {
      CountKeepsOthers(c, d, s, r, nodes[r]);
    }
    NodesWith(d, nodes, s, m);
  }

  lemma NodesWith(c: Ctx, nodes: map<NodeId, Node>, s: NodeId, m: Node)
    requires s in nodes && NodeInv(c, s, m) && forall r | r in nodes && r != s :: NodeInv(c, r, nodes[r])
    ensures NodesInv(c, nodes[s := m])
  {
    hide NodeInv;
  }

  lemma UpdateNode(c: Ctx, nodes: map<NodeId, Node>, s: NodeId, n: Node)
    requires NodesInv(c, nodes) && NodeInv(c, s, n)
    ensures NodesInv(c, nodes[s := n])
  {
    hide NodeInv;
  }

  lemma ReceiveCounts(c: Ctx, nodes: map<NodeId, Node>, s: NodeId)
    requires CtxInv(c) && NodesInv(c, nodes) && c.phase.Some? && nodes.Keys == c.client.serverIds
    requires s in nodes && nodes[s].up != []
    ensures var d := AfterPacket(c, s, nodes[s].up[0].msg);
            CtxInv(d) && NodesInv(d, nodes[s := nodes[s].(up := nodes[s].up[1..])])
    ensures UpMsgOk(c, nodes[s].server, nodes[s].up[0])
  {
    var n, d := nodes[s], AfterPacket(c, s, nodes[s].up[0].msg);
    assert NodeInv(c, s, n) && n.up[0] in n.up;
    MemberPacket(c, s, n);
    if Counting(c, d, s, n) {
      CountingCtx(c, d, s, n);
      CountNodes(c, d, nodes, s);
    } else {
      PopKeeps(c, s, n);
      UpdateNode(c, nodes, s, n.(up := n.up[1..]));
    }
  }

  lemma NormalVoteInCtx(c: Ctx, s: NodeId, n: Node)
    requires CtxInv(c) && s in c.client.serverIds && c.phase == Some(VOTE_OP)
    requires n.up != [] && UpMsgOk(c, n.server, n.up[0])
    requires OnPacket(c.client, VOTE_OP, c.recv, c.fd, s, n.up[0].msg).exit == Some(NormalReturn)
    ensures Agreed(AfterPacket(c, s, n.up[0].msg).client)
  {
    NormalVoteIsAgreed(c.client, c.recv, c.fd, s, n.up[0].msg.updateId);
  }

  /** The first answer of `s` read, counted, answered with blocks if need be, and the
      phase left if that was its last. */
  lemma ReceiveKeeps(c: Ctx, nodes: map<NodeId, Node>, s: NodeId, a: Reaction, d: Ctx)
    requires CtxInv(c) && NodesInv(c, nodes) && c.phase.Some? && nodes.Keys == c.client.serverIds
    requires s in nodes && nodes[s].up != []
    requires a == OnPacket(c.client, c.phase.value, c.recv, c.fd, s, nodes[s].up[0].msg)
    requires d == AfterPacket(c, s, nodes[s].up[0].msg)
    requires a.exit.Some? ==> !Leave(d, a.exit.value, true).tainted
    ensures var popped := nodes[s := nodes[s].(up := nodes[s].up[1..])];
            var e := if a.exit.Some? then Leave(d, a.exit.value, true) else d;
            CtxInv(e) && NodesInv(e, Multicast(popped, a.resend, c.epoch, c.begun))
  {
    hide *;
    var n := nodes[s];
    var popped := nodes[s := n.(up := n.up[1..])];
    ReceiveCounts(c, nodes, s);
    ReceiveExit(c, s, n, a, d);
    AfterReceive(d, popped, a.resend, a.exit);
  }

  lemma AgainOnlyInVoteOrClose(c: Client, op: Op, recv: set<NodeId>, fd: nat, from: NodeId, m: Message)
    requires c.Valid() && OnPacket(c, op, recv, fd, from, m).exit == Some(Again)
    ensures op == VOTE_OP || op == CLOSE_OP
  {
  }

  lemma ReceiveExit(c: Ctx, s: NodeId, n: Node, a: Reaction, d: Ctx)
    requires CtxInv(c) && s in c.client.serverIds && c.phase.Some?
    requires n.up != [] && UpMsgOk(c, n.server, n.up[0])
    requires a == OnPacket(c.client, c.phase.value, c.recv, c.fd, s, n.up[0].msg)
    requires d == AfterPacket(c, s, n.up[0].msg)
    ensures d.phase == c.phase && d.epoch == c.epoch && d.begun == c.begun && d.client.serverIds == c.client.serverIds
    ensures a.resend != [] ==>
              d.phase == Some(VOTE_OP) && a.resend == Resend(d.client, d.fd, Smallest(d.client.recvServerUpdateId))
    ensures a.exit != Some(ErrorReturn) && (a.exit == Some(NormalReturn) ==> |d.recv| == d.client.numServers)
    ensures a.exit == Some(Again) ==> d.phase == Some(VOTE_OP) || d.phase == Some(CLOSE_OP)
    ensures a.exit == Some(NormalReturn) && d.phase == Some(VOTE_OP) ==> Agreed(d.client)
  {
    MemberPacket(c, s, n);
    if a.exit == Some(Again) {
      AgainOnlyInVoteOrClose(c.client, c.phase.value, c.recv, c.fd, s, n.up[0].msg);
    }
    hide OnPacket, UpMsgOk;
    if c.phase == Some(VOTE_OP) && a.exit == Some(NormalReturn) {
      NormalVoteInCtx(c, s, n);
    }
  }

  lemma AfterReceive(d: Ctx, nodes: map<NodeId, Node>, resend: seq<Message>, exit: Option<Ret>)
    requires CtxInv(d) && NodesInv(d, nodes) && d.phase.Some? && nodes.Keys == d.client.serverIds
    requires resend != [] ==>
              d.phase == Some(VOTE_OP) && resend == Resend(d.client, d.fd, Smallest(d.client.recvServerUpdateId))
    requires exit == Some(NormalReturn) ==> |d.recv| == d.client.numServers
    requires exit == Some(NormalReturn) && d.phase == Some(VOTE_OP) ==> Agreed(d.client)
    requires exit != Some(ErrorReturn) && (exit == Some(Again) ==> d.phase != Some(OPEN_OP))
    requires exit.Some? ==> !Leave(d, exit.value, true).tainted
    ensures var e := if exit.Some? then Leave(d, exit.value, true) else d;
            CtxInv(e) && NodesInv(e, Multicast(nodes, resend, d.epoch, d.begun))
  {
    hide NodeInv, CtxInv, Leave, Agreed, Smallest;
    ResendKeeps(d, nodes, resend);
    if exit.Some? {
      LeaveFull(d, Multicast(nodes, resend, d.epoch, d.begun), exit.value);
    }
  }

  lemma ResendKeeps(d: Ctx, nodes: map<NodeId, Node>, resend: seq<Message>)
    requires CtxInv(d) && NodesInv(d, nodes)
    requires resend != [] ==>
              d.phase == Some(VOTE_OP) && resend == Resend(d.client, d.fd, Smallest(d.client.recvServerUpdateId))
    ensures NodesInv(d, Multicast(nodes, resend, d.epoch, d.begun))
  {
    if resend != [] {
      ResendOk(d, Smallest(d.client.recvServerUpdateId));
    }
    MulticastKeeps(d, nodes, resend);
  }

  lemma LeaveFull(d: Ctx, nodes: map<NodeId, Node>, ret: Ret)
    requires CtxInv(d) && NodesInv(d, nodes) && d.phase.Some? && nodes.Keys == d.client.serverIds
    requires ret == NormalReturn ==> |d.recv| == d.client.numServers
    requires ret == NormalReturn && d.phase == Some(VOTE_OP) ==> Agreed(d.client)
    requires (ret != NormalReturn ==> d.phase != Some(OPEN_OP)) && !Leave(d, ret, true).tainted
    ensures CtxInv(Leave(d, ret, true)) && NodesInv(Leave(d, ret, true), nodes)
  {
    SubsetCardinalityOf(d);
    LeaveKeeps(d, nodes, ret, true);
  }

  lemma ReactReceive(c: Ctx, s: NodeId, m: Message, a: Reaction, d: Ctx)
    requires c.client.Valid() && c.phase.Some? && c.phase.value != INIT_OP
    requires a == OnPacket(c.client, c.phase.value, c.recv, c.fd, s, m) && d == AfterPacket(c, s, m)
    ensures React(c, s, m) == (if a.exit.Some? then Leave(d, a.exit.value, s in c.client.serverIds) else d, a.resend)
  {
    hide OnPacket, Leave;
  }

  lemma MemberKeeps(c: Ctx, nodes: map<NodeId, Node>, s: NodeId)
    requires Good(c, nodes) && c.phase.Some? && nodes.Keys == c.client.serverIds && s in nodes && nodes[s].up != []
    requires !React(c, s, nodes[s].up[0].msg).0.tainted
    ensures var (d, resend) := React(c, s, nodes[s].up[0].msg);
            Good(d, Multicast(nodes[s := nodes[s].(up := nodes[s].up[1..])], resend, c.epoch, c.begun))
  {
    var m := nodes[s].up[0].msg;
    var a := OnPacket(c.client, c.phase.value, c.recv, c.fd, s, m);
    var d := AfterPacket(c, s, m);
    ReactReceive(c, s, m, a, d);
    hide *;
    assert CtxInv(c) && NodesInv(c, nodes) by { GoodMeans(c, nodes); }
    ReceiveKeeps(c, nodes, s, a, d);
    var popped := nodes[s := nodes[s].(up := nodes[s].up[1..])];
    MakesGood(if a.exit.Some? then Leave(d, a.exit.value, true) else d, Multicast(popped, a.resend, c.epoch, c.begun));
  }

  lemma GoodMeans(c: Ctx, nodes: map<NodeId, Node>)
    requires Good(c, nodes)
    ensures CtxInv(c) && NodesInv(c, nodes)
  {
  }

  lemma MakesGood(c: Ctx, nodes: map<NodeId, Node>)
    requires CtxInv(c) && NodesInv(c, nodes)
    ensures Good(c, nodes)
  {
  }

  lemma DoReceive(st: State, step: Step)
    requires Sane(st) && Enabled(st, step) && Members(st) && step.Receive?
    ensures Running(st.ctx) && st.ctx.asked && st.ctx.client.Valid()
    ensures step.s in st.nodes && st.nodes[step.s].up != [] && st.nodes.Keys == st.ctx.client.serverIds
    ensures var n := st.nodes[step.s];
            var (d, resend) := React(st.ctx, step.s, n.up[0].msg);
            Do(st, step) == State(d, Multicast(st.nodes[step.s := n.(up := n.up[1..])], resend, st.ctx.epoch,
                                               st.ctx.begun))
  {
    hide React, Multicast;
  }

  lemma StepReceive(st: State, step: Step)
    requires Sane(st) && Enabled(st, step) && Members(st) && Good(st.ctx, st.nodes) && !Do(st, step).ctx.tainted
    requires step.Receive?
    ensures Good(Do(st, step).ctx, Do(st, step).nodes)
  {
    DoReceive(st, step);
    hide *;
    MemberKeeps(st.ctx, st.nodes, step.s);
  }

  lemma StepKeeps(st: State, step: Step)
    requires Inv(st) && Sane(st) && Enabled(st, step)
    ensures Inv(Do(st, step))
  {
    hide Good, Do, Enabled, Sane;
    if !Do(st, step).ctx.tainted {
      match step {
        case Repeat => StepRepeat(st, step);
        case Receive(_) => StepReceive(st, step);
        case ReceiveForeign(_, _) => StepForeign(st, step);
        case TimeOut => StepTimeOut(st, step);
        case Lose(_, _, _) => StepOnLinks(st, step);
        case Duplicate(_, _, _) => StepOnLinks(st, step);
        case Reorder(_, _, _) => StepOnLinks(st, step);
        case Deliver(_) => StepOnLinks(st, step);
        case _ => StepCall(st, step);
      }
    }
  }

  lemma InitialCtx(ids: set<NodeId>, fifo: bool)
    ensures CtxInv(Initial(ids, fifo).ctx)
  {
    var c := Initial(ids, fifo).ctx;
    assert forall s :: Heard(c, s) == 0 && Floor(c, s) == 0;
    assert PhaseInv(c);
    hide PhaseInv;
  }

  lemma InitialNode(ids: set<NodeId>, fifo: bool, s: NodeId)
    requires s in ids
    ensures NodeInv(Initial(ids, fifo).ctx, s, Initial(ids, fifo).nodes[s])
  {
    var c := Initial(ids, fifo).ctx;
    assert DiskAfter([]) == map[] && Heard(c, s) == 0;
  }

  lemma InitialInv(ids: set<NodeId>, fifo: bool)
    ensures Inv(Initial(ids, fifo)) && Sane(Initial(ids, fifo))
  {
    var st := Initial(ids, fifo);
    assert st.nodes.Keys == ids;
    InitialCtx(ids, fifo);
    hide CtxInv, NodeInv;
    forall s | s in st.nodes
      ensures NodeInv(st.ctx, s, st.nodes[s])
    {
      InitialNode(ids, fifo, s);
    }
  }

  /** The invariant holds in the last state of every run, of any length, on any links. */
  lemma {:induction false} RunInv(ids: set<NodeId>, fifo: bool, steps: seq<Step>)
    requires Run(ids, fifo, steps).Some?
    ensures Inv(Run(ids, fifo, steps).value)
  {
    if steps == [] {
      InitialInv(ids, fifo);
    } else {
      var n := |steps| - 1;
      RunInv(ids, fifo, steps[..n]);
      StepKeeps(Run(ids, fifo, steps[..n]).value, steps[n]);
    }
  }
}
