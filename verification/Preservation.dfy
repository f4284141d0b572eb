/** Every step keeps the invariant: sending, and the ways a phase starts and ends. */
module Preservation {
  import opened FileModel
  import opened Messages
  import opened ServerSpec
  import opened ClientSpec
  import opened Network
  import opened Protocol
  import opened Invariant

  // ----------------------------------------------------------------------------- frames

  /** The fields the core of the invariant reads. */
  predicate SameView(c: Ctx, d: Ctx) {
    && c.client.serverIds == d.client.serverIds && c.client.updateMap == d.client.updateMap
    && c.client.updateId == d.client.updateId && c.phase == d.phase && c.fileName == d.fileName
    && c.prevName == d.prevName && c.log == d.log && c.begun == d.begun && c.phases == d.phases
    && c.started == d.started && c.heard == d.heard && c.epoch == d.epoch && c.decided == d.decided
    && c.clear == d.clear && c.wrote == d.wrote
  }

  lemma CoreFrame(c: Ctx, d: Ctx, s: NodeId, n: Node, m: Node)
    requires Core(c, s, n) && SameView(c, d) && m == n.(held := m.held)
    ensures Core(d, s, m)
  {
    hide *;
    CoreParts(c, s, n);
    FrameLinks(c, d, s, n, m);
    FrameServer(c, d, n, m);
    MakesCore(d, s, m);
  }

  lemma FrameLinks(c: Ctx, d: Ctx, s: NodeId, n: Node, m: Node)
    requires Ordered(c, s, n) && Numbered(c, s, n) && DownOk(c, n) && UpOk(c, n) && Idling(n)
    requires SameView(c, d) && m == n.(held := m.held)
    ensures Ordered(d, s, m) && Numbered(d, s, m) && DownOk(d, m) && UpOk(d, m) && Idling(m)
  {
    hide Pairwise;
    assert DownOk(d, m) by { assert forall t | t in n.down :: DownMsgOk(c, t); }
    assert UpOk(d, m) by { assert forall t | t in n.up :: UpMsgOk(c, n.server, t); }
    hide DownOk, UpOk;
  }

  lemma FrameServer(c: Ctx, d: Ctx, n: Node, m: Node)
    requires ServerOk(c, n) && SameView(c, d) && m == n.(held := m.held)
    ensures ServerOk(d, m)
  {
    assert Applied(c, n) == Applied(d, m);
    hide DiskAfter;
  }

  lemma MakesCore(c: Ctx, s: NodeId, n: Node)
    requires Ordered(c, s, n) && Numbered(c, s, n) && DownOk(c, n) && UpOk(c, n) && ServerOk(c, n) && Idling(n)
    ensures Core(c, s, n)
  {
  }

  /** Outside a phase the rest of the invariant reads little more. */
  lemma NodeFrame(c: Ctx, d: Ctx, s: NodeId, n: Node)
    requires NodeInv(c, s, n) && SameView(c, d) && c.phase.None? && !ClosedWithoutCommit(d)
    ensures NodeInv(d, s, n)
  {
    CoreFrame(c, d, s, n, n);
    hide Core;
  }

  lemma PhaseFrame(c: Ctx, d: Ctx)
    requires PhaseInv(c) && SameView(c, d) && (d.isFileOpen ==> c.isFileOpen || !Deciding(c))
    ensures PhaseInv(d) && forall op :: Clear(c, op) == Clear(d, op)
  {
    hide History, OnlyDecision, Fitting, Clear;
    HistoryFrame(c, d);
    OnlyFrame(c, d);
    FittingFrame(c, d);
    forall op
      ensures Clear(c, op) == Clear(d, op)
    {
      ClearFrame(c, d, op);
    }
  }

  lemma OnlyFrame(c: Ctx, d: Ctx)
    requires OnlyDecision(c) && d.phases == c.phases && d.heard == c.heard && d.epoch == c.epoch
    requires d.decided == c.decided
    requires d.client.serverIds == c.client.serverIds
    ensures OnlyDecision(d)
  {
  }

  lemma FittingFrame(c: Ctx, d: Ctx)
    requires Fitting(c) && SameView(c, d) && (d.isFileOpen ==> c.isFileOpen || !Deciding(c))
    ensures Fitting(d)
  {
    assert forall s :: Floor(d, s) == Floor(c, s);
  }

  lemma HistoryFrame(c: Ctx, d: Ctx)
    requires History(c) && d.phases == c.phases && d.begun == c.begun && d.wrote == c.wrote && d.started == c.started
    requires d.heard == c.heard && d.epoch >= c.epoch && c.decided <= d.decided
    requires d.client.serverIds == c.client.serverIds
    ensures History(d)
  {
    assert forall k | 0 <= k < |c.phases| && EpochOk(c, c.phases[k].op, c.phases[k].epoch) ::
        EpochOk(d, c.phases[k].op, c.phases[k].epoch);
    assert forall s :: Heard(d, s) == Heard(c, s);
    hide EpochOk, Heard;
  }

  // --------------------------------------------------------------------------- sending

  /** What may be sent: an ABORT that is no decision only if nothing is to be found, and a
      block between votes and decisions only as the latest. */
  ghost predicate MaySend(c: Ctx, n: Node, m: Message) {
    && DownMsgOk(c, Tagged(m, c.epoch, c.begun))
    && (m.Abort? && !Deciding(c) ==> n.server.updateMap == map[] && NoWrites(n.down))
    && (m.WriteBlock? && Calm(c) ==> c.wrote == c.begun && c.phase.None?)
  }

  lemma NumbersOnLink(c: Ctx, s: NodeId, n: Node)
    requires Core(c, s, n) && |c.phases| == c.begun + 1
    ensures forall t | t in n.up || t in n.down :: OpOf(t.msg).Some? ==> t.phase <= c.begun
  {
    CoreParts(c, s, n);
    forall t | (t in n.up || t in n.down) && OpOf(t.msg).Some?
      ensures t.phase <= c.begun
    {
      OnLink(c, s, n, t);
    }
  }

  lemma EnqueueNumbered(c: Ctx, s: NodeId, n: Node, sent: Queue)
    requires Numbered(c, s, n) && Heard(c, s) <= c.begun && forall t | t in sent :: t.phase == c.begun
    requires forall t | t in n.up || t in n.down :: OpOf(t.msg).Some? ==> t.phase <= c.begun
    ensures Numbered(c, s, n.(down := n.down + sent))
  {
    hide OpOf;
    AppendOrders(n.down, sent, NumberLe);
  }

  lemma EnqueueIdling(c: Ctx, n: Node, sent: Queue)
    requires Idling(n) && forall t | t in sent :: t.epoch == c.epoch && MaySend(c, n, t.msg)
    requires |sent| <= 1 || forall t | t in sent :: t.msg.WriteBlock?
    ensures Idling(n.(down := n.down + sent))
  {
    hide DownMsgOk;
    AppendOrders(n.down, sent, AbortFirst);
  }

  lemma EnqueueClosing(c: Ctx, s: NodeId, n: Node, sent: Queue)
    requires Closing(c, s, n) && forall t | t in sent :: MaySend(c, n, t.msg)
    requires forall t | t in n.up || t in n.down :: OpOf(t.msg).Some? ==> t.phase <= c.begun
    requires forall t | t in sent :: t.phase == c.begun
    requires |sent| <= 1 || !Calm(c)
    ensures Closing(c, s, n.(down := n.down + sent))
  {
    hide DownMsgOk, CloseFresh;
    if Calm(c) {
      assert forall a, b | a in n.down && b in sent :: CloseLast(c.wrote)(a, b);
      assert Pairwise(sent, CloseLast(c.wrote));
      AppendOrders(n.down, sent, CloseLast(c.wrote));
    }
  }

  lemma EnqueueOrdered(c: Ctx, s: NodeId, n: Node, sent: Queue)
    requires Ordered(c, s, n) && DownOk(c, n)
    requires forall t | t in sent :: t.epoch == c.epoch && DownMsgOk(c, t)
    ensures var r := n.(down := n.down + sent); Ordered(c, s, r) && DownOk(c, r)
  {
    hide DownMsgOk;
    AppendOrders(n.down, sent, EpochLe);
  }

  lemma EnqueueKeeps(c: Ctx, s: NodeId, n: Node, ms: seq<Message>)
    requires NodeInv(c, s, n) && History(c)
    requires forall m | m in ms :: MaySend(c, n, m)
    requires |ms| <= 1 || (!Calm(c) && forall m | m in ms :: m.WriteBlock?)
    ensures NodeInv(c, s, n.(down := n.down + Tag(ms, c.epoch, c.begun)))
  {
    var sent, r := Tag(ms, c.epoch, c.begun), n.(down := n.down + Tag(ms, c.epoch, c.begun));
    TagMembers(ms, c.epoch, c.begun);
    CoreParts(c, s, n);
    NumbersOnLink(c, s, n);
    assert Heard(c, s) <= c.begun;
    forall t | t in sent
      ensures t.epoch == c.epoch && t.phase == c.begun && DownMsgOk(c, t) && MaySend(c, n, t.msg)
    {
      assert t == Tagged(t.msg, c.epoch, c.begun);
    }
    hide History, MaySend, DownMsgOk, Pairwise, NumberLe;
    EnqueueOrdered(c, s, n, sent);
    EnqueueNumbered(c, s, n, sent);
    EnqueueIdling(c, n, sent);
    EnqueueClosing(c, s, n, sent);
    hide Ordered, Numbered, DownOk, Idling, Closing;
    assert UpOk(c, r) && ServerOk(c, r) && Recorded(c, s, r) && Increasing(c, s, r);
  }

  lemma MulticastKeeps(c: Ctx, nodes: map<NodeId, Node>, ms: seq<Message>)
    requires NodesInv(c, nodes) && History(c)
    requires forall s, m | s in nodes && m in ms :: MaySend(c, nodes[s], m)
    requires |ms| <= 1 || (!Calm(c) && forall m | m in ms :: m.WriteBlock?)
    ensures NodesInv(c, Multicast(nodes, ms, c.epoch, c.begun))
  {
    hide NodeInv, History, MaySend;
    forall s | s in nodes
      ensures NodeInv(c, s, Multicast(nodes, ms, c.epoch, c.begun)[s])
    {
      EnqueueKeeps(c, s, nodes[s], ms);
    }
  }

  lemma RequestOk(c: Ctx)
    requires PhaseInv(c) && c.phase.Some?
    ensures DownMsgOk(c, Tagged(Request(c.phase.value, c.fd, c.fileName), c.epoch, c.begun))
  {
    hide OnlyDecision, HeardSince;
  }

  /** With nothing cached, no server holds a block and none is under way. */
  lemma NothingToFind(c: Ctx, s: NodeId, n: Node)
    requires Core(c, s, n) && c.client.Valid() && c.client.updateId == 0
    ensures n.server.updateMap == map[] && n.server.nextUpdateId == 0 && NoWrites(n.down)
  {
    CoreParts(c, s, n);
    assert c.client.updateMap == map[];
    assert n.server.nextUpdateId > 0 ==> 0 in n.server.updateMap;
    assert forall t | t in n.down :: DownMsgOk(c, t);
  }

  lemma RequestMayBeSent(c: Ctx, s: NodeId, n: Node)
    requires CtxInv(c) && NodeInv(c, s, n) && c.phase.Some?
    ensures MaySend(c, n, Request(c.phase.value, c.fd, c.fileName))
  {
    RequestOk(c);
    assert c.phase == Some(ABORT_OP) && !Deciding(c) ==> c.client.updateId == 0;
    if c.phase == Some(ABORT_OP) && !Deciding(c) {
      NothingToFind(c, s, n);
    }
    hide CtxInv, NodeInv, DownMsgOk;
  }

  lemma ResendOk(c: Ctx, from: nat)
    requires PhaseInv(c) && c.client.Valid() && c.phase == Some(VOTE_OP)
    ensures forall m | m in Resend(c.client, c.fd, from) ::
              m.WriteBlock? && DownMsgOk(c, Tagged(m, c.epoch, c.begun)) && !Calm(c)
  {
    VoteIsEven(c);
    hide PhaseInv;
  }

  lemma WriteMessages(c: Ctx, s: NodeId, n: Node, d: Ctx, u: Update)
    requires c.client.Valid() && Core(c, s, n)
    requires d == c.(client := d.client, returned := Nothing, wrote := c.begun)
    requires d.client == c.client.(updateMap := c.client.updateMap[c.client.updateId := u],
                                   updateId := c.client.updateId + 1)
    ensures DownOk(d, n) && UpOk(d, n) && Submap(n.server.updateMap, d.client.updateMap)
  {
    assert forall t | t in n.down :: DownMsgOk(c, t);
    assert forall t | t in n.up :: UpMsgOk(c, n.server, t);
  }

  /** A WriteBlock call extends the cache and sends the block once. */
  lemma WriteKeeps(c: Ctx, s: NodeId, n: Node, d: Ctx, u: Update)
    requires History(c) && c.client.Valid() && NodeInv(c, s, n) && c.phase.None? && !Deciding(c)
    requires d == c.(client := d.client, returned := Nothing, wrote := c.begun)
    requires d.client == c.client.(updateMap := c.client.updateMap[c.client.updateId := u],
                                   updateId := c.client.updateId + 1)
    ensures NodeInv(d, s, n)
  {
    CoreParts(c, s, n);
    NumbersOnLink(c, s, n);
    WriteMessages(c, s, n, d, u);
    hide Core, Pairwise, DownOk, UpOk, Numbered, Idling;
    WriteOrders(c, s, n, d);
    hide Ordered, Closing;
    assert Recorded(d, s, n) && Increasing(d, s, n) && ServerOk(d, n);
    CoreOf(d, s, n);
  }

  lemma CoreOf(c: Ctx, s: NodeId, n: Node)
    requires Ordered(c, s, n) && Numbered(c, s, n) && DownOk(c, n) && UpOk(c, n) && ServerOk(c, n) && Idling(n)
    ensures Core(c, s, n)
  {
  }

  lemma WriteOrders(c: Ctx, s: NodeId, n: Node, d: Ctx)
    requires Ordered(c, s, n) && Numbered(c, s, n)
    requires d == c.(client := d.client, returned := Nothing, wrote := c.begun)
    requires d.client.serverIds == c.client.serverIds && c.phase.None?
    requires forall t | t in n.up || t in n.down :: OpOf(t.msg).Some? ==> t.phase <= c.begun
    ensures Ordered(d, s, n) && Numbered(d, s, n) && Closing(d, s, n)
  {
    forall i, j | 0 <= i < j < |n.down|
      ensures CloseLast(d.wrote)(n.down[i], n.down[j])
    {
      assert n.down[i] in n.down;
    }
  }

  // ------------------------------------------------------------------- starting a phase

  ghost predicate NoneOf(n: Node, op: Op) {
    forall t | t in n.up || t in n.down :: OpOf(t.msg) != Some(op)
  }

  /** What a server still sends, or will be asked for, answers no phase before `Heard`: once
      that is past the latest phase of the op, no message of the op is left on its links,
      although acks carry no transaction id. */
  lemma FreshMeansFlushed(c: Ctx, s: NodeId, op: Op, n: Node)
    requires Ordered(c, s, n) && Numbered(c, s, n) && DownOk(c, n) && UpOk(c, n) && FreshFrom(c, s, op)
    ensures NoneOf(n, op)
  {
    forall t | t in n.up || t in n.down
      ensures OpOf(t.msg) != Some(op)
    {
      if OpOf(t.msg) == Some(op) {
        OnLink(c, s, n, t);
      }
    }
  }

  /** A longer list of phases, with the running phase at its end. */
  predicate Later(c: Ctx, d: Ctx, op: Op) {
    && d.client.serverIds == c.client.serverIds && d.client.updateMap == c.client.updateMap
    && d.client.updateId == c.client.updateId && d.fileName == c.fileName && d.log == c.log
    && d.heard == c.heard && d.wrote == c.wrote && d.phase == Some(op) && d.begun == c.begun + 1 && d.epoch >= c.epoch
    && d.phases == c.phases + [Phase(op, d.epoch)] && d.started == c.started[op := d.begun]
    && c.decided <= d.decided && d.clear == Clear(c, op)
  }

  lemma LaterTag(c: Ctx, d: Ctx, op: Op, t: Tagged)
    requires History(c) && Later(c, d, op) && OpOf(t.msg).Some? && TagOk(c, t)
    ensures TagOk(d, t)
  {
    hide OpOf;
  }

  lemma LaterMessages(c: Ctx, d: Ctx, op: Op, s: NodeId, n: Node)
    requires History(c) && Core(c, s, n) && Later(c, d, op)
    ensures DownOk(d, n) && UpOk(d, n) && (d.clear ==> NoneOf(n, op))
  {
    hide *;
    CoreParts(c, s, n);
    if d.clear {
      LaterFresh(c, d, op, s, n);
      FreshMeansFlushed(c, s, op, n);
    }
    forall t | t in n.down
      ensures DownMsgOk(d, t)
    {
      OnLinkOk(c, n, t);
      LaterDown(c, d, op, n, t);
    }
    forall t | t in n.up
      ensures UpMsgOk(d, n.server, t)
    {
      OnLinkOk(c, n, t);
      LaterUp(c, d, op, s, n, t);
    }
    LinksOk(d, n);
  }

  lemma OnLinkOk(c: Ctx, n: Node, t: Tagged)
    requires DownOk(c, n) && UpOk(c, n)
    ensures (t in n.down ==> DownMsgOk(c, t)) && (t in n.up ==> UpMsgOk(c, n.server, t))
  {
  }

  lemma LinksOk(d: Ctx, n: Node)
    requires (forall t | t in n.down :: DownMsgOk(d, t)) && (forall t | t in n.up :: UpMsgOk(d, n.server, t))
    ensures DownOk(d, n) && UpOk(d, n)
  {
  }

  lemma LaterFresh(c: Ctx, d: Ctx, op: Op, s: NodeId, n: Node)
    requires Later(c, d, op) && d.clear && Ordered(c, s, n)
    ensures FreshFrom(c, s, op) && s in c.client.serverIds
  {
  }

  lemma LaterDown(c: Ctx, d: Ctx, op: Op, n: Node, t: Tagged)
    requires History(c) && Later(c, d, op) && t in n.down && DownMsgOk(c, t) && (d.clear ==> NoneOf(n, op))
    ensures DownMsgOk(d, t)
  {
    if OpOf(t.msg).Some? {
      LaterTag(c, d, op, t);
    }
    hide History, TagOk;
  }

  lemma LaterUp(c: Ctx, d: Ctx, op: Op, s: NodeId, n: Node, t: Tagged)
    requires History(c) && Later(c, d, op) && t in n.up && UpMsgOk(c, n.server, t) && (d.clear ==> NoneOf(n, op))
    requires Ordered(c, s, n)
    ensures UpMsgOk(d, n.server, t)
  {
    assert t.epoch <= c.epoch;
    LaterTag(c, d, op, t);
    hide History, TagOk, Ordered;
  }

  lemma LaterOrders(c: Ctx, d: Ctx, op: Op, s: NodeId, n: Node)
    requires History(c) && Core(c, s, n) && Later(c, d, op)
    ensures Ordered(d, s, n) && Numbered(d, s, n)
  {
    CoreParts(c, s, n);
    hide Pairwise, DownOk, UpOk, ServerOk, Idling, Clear;
    assert Floor(d, s) == Floor(c, s);
  }

  lemma ClearFrame(c: Ctx, d: Ctx, op: Op)
    requires d.started == c.started && d.heard == c.heard && d.client.serverIds == c.client.serverIds
    ensures Clear(c, op) == Clear(d, op)
  {
  }

  lemma StartIsLater(c: Ctx, op: Op)
    ensures Later(c, StartPhase(c, op), op) && Later(c, BeginDecision(c, op), op)
    ensures StartPhase(c, op).prevName == c.prevName && BeginDecision(c, op).prevName == c.prevName
  {
    ClearFrame(c, c.(epoch := c.epoch + 1, decided := c.decided + [op], tainted := c.tainted || !Clear(c, op)), op);
    hide Clear;
  }

  /** A phase that is no decision leaves the core as it is. */
  lemma StartCore(c: Ctx, op: Op, s: NodeId, n: Node)
    requires History(c) && Core(c, s, n)
    ensures Core(StartPhase(c, op), s, n) && (Clear(c, op) ==> NoneOf(n, op))
  {
    hide *;
    var d := StartPhase(c, op);
    StartIsLater(c, op);
    LaterMessages(c, d, op, s, n);
    LaterOrders(c, d, op, s, n);
    CoreParts(c, s, n);
    StartServer(c, op, n);
    CoreOf(d, s, n);
  }

  lemma StartServer(c: Ctx, op: Op, n: Node)
    requires ServerOk(c, n)
    ensures ServerOk(StartPhase(c, op), n) && StartPhase(c, op).clear == Clear(c, op)
  {
    hide Clear;
    assert Applied(c, n) == Applied(StartPhase(c, op), n);
  }

  /** A VOTE or CLOSE phase, or an OPEN or ABORT that is no decision, starts. */
  lemma StartKeeps(c: Ctx, op: Op, s: NodeId, n: Node)
    requires History(c) && NodeInv(c, s, n) && c.returned == Nothing && c.client.recvServerUpdateId == map[]
    requires c.phase != Some(VOTE_OP) && (op == CLOSE_OP ==> !n.held)
    requires op == VOTE_OP ==> Clear(c, op)
    ensures NodeInv(StartPhase(c, op), s, n)
  {
    var d := StartPhase(c, op);
    StartCore(c, op, s, n);
    assert Recorded(d, s, n) && Closing(d, s, n) by { hide Core, Clear, CloseFresh, Pairwise; }
    assert Increasing(d, s, n) by { VotesOfNone(d, s, n, op, Clear(c, op)); }
    hide Core, Recorded, Closing, Increasing;
  }

  lemma VotesOfNone(d: Ctx, s: NodeId, n: Node, op: Op, clear: bool)
    requires d.phase == Some(op) && (op == VOTE_OP ==> clear) && (clear ==> NoneOf(n, op))
    requires d.client.recvServerUpdateId == map[]
    ensures Increasing(d, s, n)
  {
    if op == VOTE_OP {
      assert forall t | t in n.up :: !t.msg.VoteAck?;
    }
  }

  lemma LaterHandled(c: Ctx, d: Ctx, op: Op, n: Node)
    requires !Deciding(c) && |c.decided| == (c.epoch + 1) / 2 && n.seen <= c.epoch
    requires Later(c, d, op) && d.epoch == c.epoch + 1 && d.decided == c.decided + [op]
    ensures forall o :: LastHandled(d, n, o) <==> LastHandled(c, n, o)
    ensures forall o :: Before(d, n, o) <==> o == op
    ensures forall o :: !Before(c, n, o)
  {
    hide Clear;
  }

  lemma HistoryPart(c: Ctx)
    requires PhaseInv(c)
    ensures History(c) && |c.decided| == (c.epoch + 1) / 2
  {
    hide History, OnlyDecision, HeardSince;
  }

  lemma DecisionFields(c: Ctx, op: Op)
    ensures var d := BeginDecision(c, op);
            && d.epoch == c.epoch + 1 && d.decided == c.decided + [op] && d.returned == c.returned && d.log == c.log
            && d.client == c.client && d.phase == Some(op) && d.fileName == c.fileName && d.prevName == c.prevName
            && (!Deciding(c) ==> Deciding(d))
  {
    hide Clear;
  }

  /** A decision starts: its messages are not yet under way, and no server has heard of it. */
  lemma DecisionLinks(c: Ctx, op: Op, s: NodeId, n: Node)
    requires PhaseInv(c) && NodeInv(c, s, n) && !Deciding(c)
    ensures var d := BeginDecision(c, op);
            && Ordered(d, s, n) && Numbered(d, s, n) && DownOk(d, n) && UpOk(d, n) && Idling(n) && ServerOk(c, n)
            && (Clear(c, op) ==> NoneOf(n, op)) && n.seen <= c.epoch
            && (forall o :: LastHandled(d, n, o) <==> LastHandled(c, n, o))
            && (forall o :: Before(d, n, o) <==> o == op)
            && (forall o :: !Before(c, n, o))
  {
    hide *;
    var d := BeginDecision(c, op);
    HistoryPart(c);
    ClosingPart(c, s, n);
    StartIsLater(c, op);
    DecisionFields(c, op);
    LaterMessages(c, d, op, s, n);
    LaterOrders(c, d, op, s, n);
    CoreParts(c, s, n);
    LaterHandled(c, d, op, n);
    LaterClear(c, d, op);
  }

  lemma LaterClear(c: Ctx, d: Ctx, op: Op)
    requires Later(c, d, op)
    ensures d.clear == Clear(c, op)
  {
    hide Clear;
  }

  lemma AbortServer(c: Ctx, d: Ctx, n: Node)
    requires ServerOk(c, n) && d.log == c.log && d.client == c.client && d.fileName == c.fileName
    requires forall o :: LastHandled(d, n, o) <==> LastHandled(c, n, o)
    requires forall o :: Before(d, n, o) <==> o == ABORT_OP
    requires forall o :: !Before(c, n, o)
    ensures ServerOk(d, n)
  {
    hide LastHandled, Before, DiskAfter;
  }

  /** An ABORT that is a decision starts. */
  lemma AbortKeeps(c: Ctx, s: NodeId, n: Node)
    requires PhaseInv(c) && NodeInv(c, s, n) && !Deciding(c) && c.returned == Nothing
    ensures NodeInv(BeginDecision(c, ABORT_OP), s, n)
  {
    hide *;
    var d := BeginDecision(c, ABORT_OP);
    DecisionLinks(c, ABORT_OP, s, n);
    DecisionFields(c, ABORT_OP);
    AbortServer(c, d, n);
    DecisionNode(d, s, n);
  }

  lemma DecisionNode(d: Ctx, s: NodeId, n: Node)
    requires Ordered(d, s, n) && Numbered(d, s, n) && DownOk(d, n) && UpOk(d, n) && ServerOk(d, n) && Idling(n)
    requires (d.phase == Some(OPEN_OP) || d.phase == Some(COMMIT_OP) || d.phase == Some(ABORT_OP))
    requires Deciding(d) && d.returned == Nothing
    ensures NodeInv(d, s, n)
  {
    CoreOf(d, s, n);
    hide Core;
  }

  // ------------------------------------------------------------------ the phases themselves

  lemma StartHistory(c: Ctx, d: Ctx, op: Op)
    requires History(c) && Later(c, d, op) && EpochOk(d, op, d.epoch)
    ensures History(d)
  {
    hide Clear;
    forall j, k | 0 <= j <= k < |d.phases|
      ensures d.phases[j].epoch <= d.phases[k].epoch
    {
      if j <= c.begun {
        assert c.phases[j].epoch <= c.epoch;
      }
    }
    forall k | 0 <= k < |d.phases|
      ensures var p := d.phases[k];
              p.op in d.started && k <= d.started[p.op] && p.epoch <= d.epoch && EpochOk(d, p.op, p.epoch)
    {
      if k <= c.begun {
        assert EpochOk(c, c.phases[k].op, c.phases[k].epoch);
      }
    }
    forall o | o in d.started
      ensures d.started[o] <= d.begun && d.phases[d.started[o]].op == o
    {
      if o != op {
        assert c.phases[c.started[o]].op == o;
      }
    }
    forall s | s in d.client.serverIds
      ensures Heard(d, s) <= d.begun
    {
      assert Heard(c, s) <= c.begun;
    }
  }

  lemma LaterFloor(c: Ctx, d: Ctx, op: Op, e: int)
    requires History(c) && Later(c, d, op) && HeardSince(c, e)
    ensures HeardSince(d, e)
  {
    hide Clear;
    forall s | s in d.client.serverIds
      ensures e <= Floor(d, s)
    {
      assert e <= Floor(c, s) && Heard(c, s) <= c.begun;
    }
  }

  lemma StartPhaseInv(c: Ctx, op: Op)
    requires PhaseInv(c) && op != INIT_OP && op != COMMIT_OP && c.phase != Some(VOTE_OP)
    requires Deciding(c) ==> op == OPEN_OP && c.phase.None?
    requires op == VOTE_OP ==> Clear(c, op)
    ensures PhaseInv(StartPhase(c, op))
  {
    hide *;
    var d := StartPhase(c, op);
    HistoryPart(c);
    StartIsLater(c, op);
    StartEpoch(c, op);
    StartHistory(c, d, op);
    StartOnly(c, op);
    StartFits(c, op);
    PhaseInvOf(d);
  }

  lemma PhaseInvOf(c: Ctx)
    requires History(c) && OnlyDecision(c) && Fitting(c)
    ensures PhaseInv(c)
  {
    hide History, OnlyDecision, Fitting;
  }

  lemma StartEpoch(c: Ctx, op: Op)
    requires PhaseInv(c) && op != INIT_OP && op != COMMIT_OP && (Deciding(c) ==> op == OPEN_OP && c.phase.None?)
    ensures EpochOk(StartPhase(c, op), op, StartPhase(c, op).epoch)
  {
    hide History, OnlyDecision, HeardSince, Clear;
  }

  lemma StartFits(c: Ctx, op: Op)
    requires PhaseInv(c) && op != INIT_OP && op != COMMIT_OP && c.phase != Some(VOTE_OP)
    requires Deciding(c) ==> op == OPEN_OP && c.phase.None?
    requires op == VOTE_OP ==> Clear(c, op)
    ensures Fitting(StartPhase(c, op))
  {
    hide *;
    PhaseParts(c);
    StartIsLater(c, op);
    LaterFloor(c, StartPhase(c, op), op, c.epoch - (if Deciding(c) && c.phase != Some(COMMIT_OP) then 2 else 1));
    StartedFits(c, op);
  }

  lemma StartedFits(c: Ctx, op: Op)
    requires Fitting(c) && op != INIT_OP && op != COMMIT_OP && c.phase != Some(VOTE_OP)
    requires Deciding(c) ==> op == OPEN_OP && c.phase.None?
    requires op == VOTE_OP ==> Clear(c, op)
    requires HeardSince(StartPhase(c, op), c.epoch - (if Deciding(c) && c.phase != Some(COMMIT_OP) then 2 else 1))
    ensures Fitting(StartPhase(c, op))
  {
    hide HeardSince, Clear, Onward, WithinCall;
  }

  lemma StartOnly(c: Ctx, op: Op)
    requires PhaseInv(c)
    ensures OnlyDecision(StartPhase(c, op))
  {
    hide Clear, Fitting;
  }

  lemma BeginDecisionInv(c: Ctx, op: Op)
    requires PhaseInv(c) && IsDecision(op) && !Deciding(c) && Clear(c, op)
    requires op == COMMIT_OP ==> HeardSince(c, c.epoch)
    ensures PhaseInv(BeginDecision(c, op))
  {
    hide *;
    var d := BeginDecision(c, op);
    PhaseParts(c);
    StartIsLater(c, op);
    BegunDecisionEpoch(c, op);
    StartHistory(c, d, op);
    LaterFloor(c, d, op, if op == COMMIT_OP then c.epoch else c.epoch - 1);
    DecisionIsOnly(c, op);
    DecisionFits(c, op);
    MakesPhaseInv(d);
  }

  lemma PhaseParts(c: Ctx)
    requires PhaseInv(c)
    ensures History(c) && OnlyDecision(c) && Fitting(c) && |c.phases| == c.begun + 1 && |c.decided| == (c.epoch + 1) / 2
    ensures forall k | 0 <= k < |c.phases| :: c.phases[k].epoch <= c.epoch
    ensures HeardSince(c, c.epoch - (if Deciding(c) && c.phase != Some(COMMIT_OP) then 2 else 1))
  {
    hide OnlyDecision, HeardSince;
  }

  lemma MakesPhaseInv(c: Ctx)
    requires History(c) && OnlyDecision(c) && Fitting(c)
    ensures PhaseInv(c)
  {
  }

  lemma BegunDecisionEpoch(c: Ctx, op: Op)
    requires IsDecision(op) && !Deciding(c) && |c.decided| == (c.epoch + 1) / 2
    ensures EpochOk(BeginDecision(c, op), op, BeginDecision(c, op).epoch)
  {
    hide Clear, Onward, WithinCall;
  }

  lemma DecisionFits(c: Ctx, op: Op)
    requires IsDecision(op) && !Deciding(c) && Clear(c, op) && |c.phases| == c.begun + 1
    requires |c.decided| == (c.epoch + 1) / 2
    requires HeardSince(BeginDecision(c, op), if op == COMMIT_OP then c.epoch else c.epoch - 1)
    requires forall k | 0 <= k < |c.phases| :: c.phases[k].epoch <= c.epoch
    ensures Fitting(BeginDecision(c, op))
  {
    ClearFrame(c, c.(epoch := c.epoch + 1, decided := c.decided + [op], tainted := c.tainted || !Clear(c, op)), op);
    hide Clear, HeardSince, Onward, WithinCall;
  }

  lemma DecisionIsOnly(c: Ctx, op: Op)
    requires History(c) && Clear(c, op)
    ensures OnlyDecision(BeginDecision(c, op))
  {
    forall s | s in c.client.serverIds
      ensures forall k | Heard(c, s) <= k < |c.phases| :: c.phases[k].op != op
    {
      assert FreshFrom(c, s, op);
      FreshPhases(c, s, op);
    }
    hide History, Clear, FreshFrom;
  }

  lemma FreshPhases(c: Ctx, s: NodeId, op: Op)
    requires History(c) && FreshFrom(c, s, op)
    ensures forall k | Heard(c, s) <= k < |c.phases| :: c.phases[k].op != op
  {
  }

  lemma LaterEpoch(c: Ctx, j: nat, k: nat)
    requires History(c) && j < |c.phases| && k < |c.phases| && c.phases[k].epoch < c.phases[j].epoch
    ensures k < j
  {
  }

  /** Between decisions, a vote phase always starts clear. */
  lemma VoteStartsClear(c: Ctx)
    requires PhaseInv(c) && Calm(c)
    ensures Clear(c, VOTE_OP)
  {
    forall s | s in c.client.serverIds
      ensures FreshFrom(c, s, VOTE_OP)
    {
      FloorBound(c, s);
      hide OnlyDecision, HeardSince;
      assert Heard(c, s) <= c.begun;
      if VOTE_OP in c.started {
        var k := c.started[VOTE_OP];
        assert c.phases[k].op == VOTE_OP && EpochOk(c, VOTE_OP, c.phases[k].epoch);
        VoteEpoch(c, k);
        LaterEpoch(c, Heard(c, s), k);
      }
    }
  }

  lemma VoteEpoch(c: Ctx, k: nat)
    requires PhaseInv(c) && Calm(c) && k < |c.phases| && c.phases[k].op == VOTE_OP
    ensures c.phases[k].epoch + 1 < c.epoch
  {
    hide OnlyDecision, HeardSince;
    assert EpochOk(c, VOTE_OP, c.phases[k].epoch) && c.phases[k].epoch <= c.epoch;
    assert c.phases[k] == Phase(VOTE_OP, c.phases[k].epoch);
  }

  lemma OpenServer(c: Ctx, d: Ctx, n: Node)
    requires ServerOk(c, n) && d.prevName == c.fileName && d.log == c.log && d.client == c.client && n.seen <= c.epoch
    requires forall o :: LastHandled(d, n, o) <==> LastHandled(c, n, o)
    requires forall o :: Before(d, n, o) <==> o == OPEN_OP
    requires forall o :: !Before(c, n, o)
    ensures ServerOk(d, n)
  {
    hide LastHandled, Before, DiskAfter;
  }

  lemma OpenMessages(e: Ctx, d: Ctx, n: Node)
    requires DownOk(e, n) && UpOk(e, n) && NoneOf(n, OPEN_OP)
    requires d == e.(fileName := d.fileName, prevName := d.prevName)
    ensures DownOk(d, n) && UpOk(d, n)
  {
    assert forall t | t in n.down :: DownMsgOk(e, t) && DownMsgOk(d, t);
    assert forall t | t in n.up :: UpMsgOk(e, n.server, t) && UpMsgOk(d, n.server, t);
  }

  lemma OpenOrders(e: Ctx, d: Ctx, s: NodeId, n: Node)
    requires Ordered(e, s, n) && Numbered(e, s, n)
    requires d == e.(fileName := d.fileName, prevName := d.prevName)
    ensures Ordered(d, s, n) && Numbered(d, s, n)
  {
    hide Pairwise;
  }

  /** An OPEN of a new name starts: the name changes on the client first. */
  lemma OpenKeeps(c: Ctx, name: Name, s: NodeId, n: Node)
    requires PhaseInv(c) && NodeInv(c, s, n) && c.phase.None? && !Deciding(c) && Clear(c, OPEN_OP)
    requires c.returned == Nothing
    ensures NodeInv(BeginDecision(c.(prevName := c.fileName, fileName := name), OPEN_OP), s, n)
  {
    hide *;
    var e, d := BeginDecision(c, OPEN_OP), BeginDecision(c.(prevName := c.fileName, fileName := name), OPEN_OP);
    RenamedDecision(c, name);
    DecisionLinks(c, OPEN_OP, s, n);
    DecisionFields(c.(prevName := c.fileName, fileName := name), OPEN_OP);
    DecidingFrame(c, c.(prevName := c.fileName, fileName := name));
    OpenMessages(e, d, n);
    OpenOrders(e, d, s, n);
    OpenHandled(c, e, d, n);
    OpenServer(c, d, n);
    DecisionNode(d, s, n);
  }

  /** What the beginning of a phase leaves as it is. */
  lemma BeginFields(c: Ctx, op: Op)
    ensures var d := StartPhase(c, op);
            d == c.(phase := Some(op), asked := false, recv := {}, second := false, clear := d.clear,
                    begun := c.begun + 1,
                    phases := d.phases, started := d.started)
    ensures var d := BeginDecision(c, op);
            d == c.(phase := Some(op), asked := false, recv := {}, second := false, clear := d.clear,
                    begun := c.begun + 1,
                    phases := d.phases, started := d.started, epoch := c.epoch + 1, decided := d.decided,
                      tainted := d.tainted)
  {
    hide Clear, Onward, WithinCall;
  }

  function WithNames(c: Ctx, prev: Name, name: Name): Ctx {
    c.(prevName := prev, fileName := name)
  }

  lemma RenamedDecision(c: Ctx, name: Name)
    ensures BeginDecision(c.(prevName := c.fileName, fileName := name), OPEN_OP)
         == BeginDecision(c, OPEN_OP).(prevName := c.fileName, fileName := name)
  {
    hide *;
    DecisionStarts(c);
    DecisionStarts(WithNames(c, c.fileName, name));
    DecidedNamed(c, c.fileName, name);
    StartNamed(Decided(c, OPEN_OP), c.fileName, name);
    WithNamesMeans(c, c.fileName, name);
    WithNamesMeans(BeginDecision(c, OPEN_OP), c.fileName, name);
  }

  lemma WithNamesMeans(c: Ctx, prev: Name, name: Name)
    ensures WithNames(c, prev, name) == c.(prevName := prev, fileName := name)
  {
  }

  lemma DecisionStarts(c: Ctx)
    ensures BeginDecision(c, OPEN_OP) == StartPhase(Decided(c, OPEN_OP), OPEN_OP)
  {
    hide StartPhase, Decided;
  }

  lemma DecidedNamed(c: Ctx, prev: Name, name: Name)
    ensures Decided(WithNames(c, prev, name), OPEN_OP) == WithNames(Decided(c, OPEN_OP), prev, name)
  {
    ClearFrame(c, WithNames(c, prev, name), OPEN_OP);
    hide Clear;
  }

  lemma StartNamed(c: Ctx, prev: Name, name: Name)
    ensures StartPhase(WithNames(c, prev, name), OPEN_OP) == WithNames(StartPhase(c, OPEN_OP), prev, name)
  {
    ClearFrame(c, WithNames(c, prev, name), OPEN_OP);
    hide Clear, Onward, WithinCall;
  }

  lemma DecidingFrame(c: Ctx, d: Ctx)
    requires d.epoch == c.epoch
    ensures Deciding(d) == Deciding(c)
  {
  }

  lemma OpenHandled(c: Ctx, e: Ctx, d: Ctx, n: Node)
    requires d == e.(fileName := d.fileName, prevName := d.prevName)
    requires forall o :: LastHandled(e, n, o) <==> LastHandled(c, n, o)
    requires forall o :: Before(e, n, o) <==> o == OPEN_OP
    ensures forall o :: LastHandled(d, n, o) <==> LastHandled(c, n, o)
    ensures forall o :: Before(d, n, o) <==> o == OPEN_OP
  {
    assert forall o :: LastHandled(d, n, o) <==> LastHandled(e, n, o);
    assert forall o :: Before(d, n, o) <==> Before(e, n, o);
  }

  // --------------------------------------------------------------------- ending a phase

  /** Once a server has been heard in this epoch, nothing older is left on its links. */
  lemma HeardIsCurrent(c: Ctx, s: NodeId, n: Node)
    requires Ordered(c, s, n) && Floor(c, s) == c.epoch
    ensures n.seen == c.epoch && forall t | t in n.up || t in n.down :: t.epoch == c.epoch
  {
  }

  /** The check in `procVoteAckMessage` compares answers with the client's counter; with
      one recorded answer from each server it proves every server complete. */
  lemma AgreementMeansComplete(c: Ctx, s: NodeId, n: Node)
    requires ClientInv(c) && NodeInv(c, s, n) && c.phase == Some(VOTE_OP) && s in c.recv && Agreed(c.client)
    ensures n.server.updateMap == c.client.updateMap && n.server.nextUpdateId == c.client.updateId
  {
    var sv := n.server;
    assert c.client.updateId <= c.client.recvServerUpdateId[s] <= sv.nextUpdateId;
    assert c.client.updateId !in sv.updateMap;
    forall i | i in c.client.updateMap
      ensures i in sv.updateMap
    {
      assert i < c.client.updateId;
    }
  }

  lemma AgreedServer(c: Ctx, d: Ctx, n: Node)
    requires ServerOk(c, n) && |d.log| == |c.log| + 1 && d.log[..|c.log|] == c.log && d.client == c.client
    requires n.seen <= c.epoch
    requires n.server.updateMap == c.client.updateMap && n.server.nextUpdateId == c.client.updateId
    requires forall o :: LastHandled(d, n, o) <==> LastHandled(c, n, o)
    requires forall o :: Before(d, n, o) <==> o == COMMIT_OP
    requires forall o :: !Before(c, n, o)
    requires d.fileName == c.fileName
    ensures ServerOk(d, n)
  {
    hide LastHandled, Before, DiskAfter;
    assert d.log[..|d.log| - 1] == c.log;
    assert Applied(d, n) == c.log;
  }

  function WithLog(c: Ctx, t: Txn): Ctx {
    c.(log := c.log + [t])
  }

  lemma DecidedLogged(c: Ctx, t: Txn)
    ensures Decided(WithLog(c, t), COMMIT_OP) == WithLog(Decided(c, COMMIT_OP), t)
  {
    ClearFrame(c, WithLog(c, t), COMMIT_OP);
    hide Clear;
  }

  lemma StartLogged(c: Ctx, t: Txn)
    ensures StartPhase(WithLog(c, t), COMMIT_OP) == WithLog(StartPhase(c, COMMIT_OP), t)
  {
    ClearFrame(c, WithLog(c, t), COMMIT_OP);
    hide Clear, Onward, WithinCall;
  }

  lemma AgreedDecision(c: Ctx, t: Txn)
    ensures BeginDecision(WithLog(c, t), COMMIT_OP) == WithLog(BeginDecision(c, COMMIT_OP), t)
  {
    DecidedLogged(c, t);
    StartLogged(Decided(c, COMMIT_OP), t);
    hide StartPhase, Decided, WithLog, Onward, WithinCall;
  }

  lemma CheckedVoteDecides(c: Ctx)
    requires c.client.Valid()
    ensures LeaveVote(c, NormalReturn, true) == BeginDecision(WithLog(c, CurrentTxn(c)), COMMIT_OP)
  {
    hide BeginDecision, CurrentTxn;
  }

  lemma WithLogMeans(c: Ctx, t: Txn)
    ensures WithLog(c, t) == c.(log := c.log + [t])
  {
  }

  lemma AgreedDecisionLogs(c: Ctx)
    requires c.client.Valid()
    ensures var b, d := BeginDecision(c, COMMIT_OP), LeaveVote(c, NormalReturn, true);
            && d == b.(log := c.log + [CurrentTxn(c)]) && |d.log| == |c.log| + 1 && d.log[..|c.log|] == c.log
            && d.client == c.client && d.returned == c.returned && d.fileName == c.fileName
            && d.phase == Some(COMMIT_OP) && Deciding(d) == Deciding(b)
  {
    var b := BeginDecision(c, COMMIT_OP);
    assert b.client == c.client && b.returned == c.returned && b.fileName == c.fileName && b.log == c.log by {
      hide Clear, Onward, WithinCall;
    }
    hide *;
    CheckedVoteDecides(c);
    AgreedDecision(c, CurrentTxn(c));
    WithLogMeans(b, CurrentTxn(c));
    DecidingFrame(b, WithLog(b, CurrentTxn(c)));
  }

  lemma AgreedHandled(c: Ctx, b: Ctx, d: Ctx, n: Node)
    requires d == b.(log := d.log)
    requires forall o :: LastHandled(b, n, o) <==> LastHandled(c, n, o)
    requires forall o :: Before(b, n, o) <==> o == COMMIT_OP
    ensures forall o :: LastHandled(d, n, o) <==> LastHandled(c, n, o)
    ensures forall o :: Before(d, n, o) <==> o == COMMIT_OP
  {
    assert forall o :: LastHandled(d, n, o) <==> LastHandled(b, n, o);
    assert forall o :: Before(d, n, o) <==> Before(b, n, o);
  }

  lemma VotingCtx(c: Ctx)
    requires CtxInv(c) && c.phase == Some(VOTE_OP)
    ensures PhaseInv(c) && ClientInv(c) && c.client.Valid() && !Deciding(c) && c.returned == Nothing
  {
    VoteIsEven(c);
    hide PhaseInv;
  }

  lemma AgreeKeeps(c: Ctx, s: NodeId, n: Node)
    requires CtxInv(c) && NodeInv(c, s, n) && c.phase == Some(VOTE_OP) && s in c.recv && Agreed(c.client)
    ensures c.client.Valid() && NodeInv(LeaveVote(c, NormalReturn, true), s, n)
  {
    hide *;
    VotingCtx(c);
    var b, d := BeginDecision(c, COMMIT_OP), LeaveVote(c, NormalReturn, true);
    AgreedDecisionLogs(c);
    DecisionLinks(c, COMMIT_OP, s, n);
    DecisionFields(c, COMMIT_OP);
    AgreementMeansComplete(c, s, n);
    AgreedLinks(b, d, s, n);
    AgreedHandled(c, b, d, n);
    AgreedServer(c, d, n);
    DecisionNode(d, s, n);
  }

  lemma AgreedLinks(b: Ctx, d: Ctx, s: NodeId, n: Node)
    requires Ordered(b, s, n) && Numbered(b, s, n) && DownOk(b, n) && UpOk(b, n) && d == b.(log := d.log)
    ensures Ordered(d, s, n) && Numbered(d, s, n) && DownOk(d, n) && UpOk(d, n)
  {
    hide Pairwise;
    assert forall t | t in n.down :: DownMsgOk(b, t) && DownMsgOk(d, t);
    assert forall t | t in n.up :: UpMsgOk(b, n.server, t) && UpMsgOk(d, n.server, t);
  }

  /** OPEN, COMMIT and ABORT decisions completed by all servers. */
  lemma EndDecisionKeeps(c: Ctx, d: Ctx, s: NodeId, n: Node)
    requires PhaseInv(c) && NodeInv(c, s, n) && c.phase.Some? && Deciding(c) && Floor(c, s) == c.epoch
    requires d == EndDecision(c).(client := d.client) && d.returned == Nothing
    requires d.client == if c.phase == Some(OPEN_OP) then c.client else c.client.Reset()
    ensures NodeInv(d, s, n)
  {
    CoreParts(c, s, n);
    HeardIsCurrent(c, s, n);
    DecisionRunning(c, n);
    hide PhaseInv, Closing, Recorded, Increasing;
    EndDecisionMessages(c, d, n);
    EndDecisionOrders(c, d, s, n);
    EndDecisionServer(c, d, n);
    EndDecisionClosing(d, s, n);
    hide Ordered, Numbered, DownOk, UpOk, ServerOk, Idling;
    NoPhase(d, s, n);
  }

  lemma DecisionRunning(c: Ctx, n: Node)
    requires PhaseInv(c) && c.phase.Some? && Deciding(c) && n.seen == c.epoch
    ensures LastHandled(c, n, c.phase.value) && IsDecision(c.phase.value)
  {
    hide OnlyDecision, HeardSince;
    assert EpochOk(c, c.phases[c.begun].op, c.phases[c.begun].epoch);
  }

  lemma EndDecisionMessages(c: Ctx, d: Ctx, n: Node)
    requires DownOk(c, n) && UpOk(c, n) && Deciding(c) && d == EndDecision(c).(client := d.client)
    requires forall t | t in n.up || t in n.down :: t.epoch == c.epoch
    ensures DownOk(d, n) && UpOk(d, n)
  {
    assert forall t | t in n.down :: DownMsgOk(c, t) && DownMsgOk(d, t);
    assert forall t | t in n.up :: UpMsgOk(c, n.server, t) && UpMsgOk(d, n.server, t);
  }

  lemma EndDecisionOrders(c: Ctx, d: Ctx, s: NodeId, n: Node)
    requires Ordered(c, s, n) && Numbered(c, s, n) && d == EndDecision(c).(client := d.client)
    requires d.client.serverIds == c.client.serverIds
    ensures Ordered(d, s, n) && Numbered(d, s, n)
  {
    hide Pairwise;
  }

  lemma EndDecisionServer(c: Ctx, d: Ctx, n: Node)
    requires ServerOk(c, n) && n.seen == c.epoch && c.phase.Some? && LastHandled(c, n, c.phase.value) && Deciding(c)
    requires IsDecision(c.phase.value) && d == EndDecision(c).(client := d.client)
    requires d.client == if c.phase == Some(OPEN_OP) then c.client else c.client.Reset()
    ensures ServerOk(d, n)
  {
    assert Applied(d, n) == Applied(c, n) == c.log;
  }

  /** Nothing of an even epoch is left, and so no CLOSE. */
  lemma EndDecisionClosing(d: Ctx, s: NodeId, n: Node)
    requires DownOk(d, n) && UpOk(d, n) && d.phase.None? && forall t | t in n.up || t in n.down :: t.epoch % 2 == 1
    ensures Closing(d, s, n)
  {
    forall t | t in n.up || t in n.down
      ensures !t.msg.Close? && !t.msg.CloseAck?
    {
      if t in n.up {
        assert UpMsgOk(d, n.server, t);
      } else {
        assert DownMsgOk(d, t);
      }
    }
  }

  /** Outside a phase there is nothing to count. */
  lemma NoPhase(d: Ctx, s: NodeId, n: Node)
    requires d.phase.None? && d.returned == Nothing && Closing(d, s, n)
    requires Ordered(d, s, n) && Numbered(d, s, n) && DownOk(d, n) && UpOk(d, n) && ServerOk(d, n) && Idling(n)
    ensures NodeInv(d, s, n)
  {
    CoreOf(d, s, n);
    hide Core, Closing;
  }

  /** A phase that is no decision ends. */
  predicate Ended(c: Ctx, d: Ctx) {
    d == c.(phase := None, recv := {}, isFileOpen := d.isFileOpen, returned := d.returned)
  }

  lemma EndedLinks(c: Ctx, d: Ctx, s: NodeId, n: Node)
    requires Core(c, s, n) && Ended(c, d)
    ensures Core(d, s, n)
  {
    CoreParts(c, s, n);
    hide Pairwise;
    assert DownOk(d, n) by { assert forall t | t in n.down :: DownMsgOk(c, t); }
    assert UpOk(d, n) by { assert forall t | t in n.up :: UpMsgOk(c, n.server, t); }
    hide DownOk, UpOk;
    assert Applied(d, n) == Applied(c, n);
  }

  lemma EndedKeeps(c: Ctx, d: Ctx, s: NodeId, n: Node)
    requires NodeInv(c, s, n) && Ended(c, d) && c.phase.Some? && c.phase != Some(VOTE_OP)
    requires ClosedWithoutCommit(d) ==> c.phase == Some(CLOSE_OP) && s in c.recv && CloseFresh(c, s) && !Deciding(c)
    ensures NodeInv(d, s, n)
  {
    EndedLinks(c, d, s, n);
    hide Core, CloseFresh;
  }

  lemma EndedPhaseInv(c: Ctx, d: Ctx)
    requires PhaseInv(c) && Ended(c, d) && c.phase.Some? && c.phase != Some(VOTE_OP)
    requires Deciding(c) ==> c.phase == Some(OPEN_OP) && !d.isFileOpen && c.client.serverIds != {}
    ensures PhaseInv(d)
  {
    HistoryFrame(c, d);
    EndedDecision(c, d);
    EndedFits(c, d);
    hide History, OnlyDecision, Fitting;
  }

  lemma EndedDecision(c: Ctx, d: Ctx)
    requires OnlyDecision(c) && Ended(c, d)
    ensures OnlyDecision(d)
  {
  }

  lemma EndedFits(c: Ctx, d: Ctx)
    requires Fitting(c) && Ended(c, d) && c.phase.Some? && c.phase != Some(VOTE_OP)
    requires Deciding(c) ==> c.phase == Some(OPEN_OP) && !d.isFileOpen && c.client.serverIds != {}
    ensures Fitting(d)
  {
    assert forall s :: Floor(d, s) == Floor(c, s);
    hide Floor, Idle;
  }
}
