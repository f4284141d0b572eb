/** Short runs of one client and one server in which a call returns normally although its work
    is not done, or returns an error although it is. When such runs exist at all is the
    subject of `Returns` and `Atomicity`. */
module Counterexamples {
  import opened FileModel
  import opened Messages
  import opened ServerSpec
  import opened ClientSpec
  import opened Network
  import opened Protocol
  import opened Reachability

  const A: Name := [97]
  const B: Name := [98]
  const U := Update(0, [1])
  const V := Update(0, [2])

  // ------------------------------------------------------------------- runs with one server

  /** The run of these steps ends with this client and this server. */
  ghost predicate At(steps: seq<Step>, c: Ctx, n: Node) {
    Run({1}, true, steps) == Some(State(c, map[1 := n]))
  }

  lemma Extend(steps: seq<Step>, step: Step, c: Ctx, n: Node, d: Ctx, m: Node)
    requires At(steps, c, n) && Enabled(State(c, map[1 := n]), step)
    requires Sane(State(c, map[1 := n])) && Do(State(c, map[1 := n]), step) == State(d, map[1 := m])
    ensures At(steps + [step], d, m)
  {
    assert (steps + [step])[..|steps|] == steps;
  }

  lemma ByDeliver(steps: seq<Step>, c: Ctx, n: Node)
    requires At(steps, c, n) && n.down != [] && n.server.Valid()
    ensures At(steps + [Deliver(1)], c, DeliverTo(c, n))
  {
    hide DeliverTo;
    assert Run({1}, true, steps).Some?;
    Extend(steps, Deliver(1), c, n, c, DeliverTo(c, n));
  }

  lemma ByLoss(steps: seq<Step>, c: Ctx, n: Node, up: bool)
    requires At(steps, c, n) && |Link(n, up)| == 1
    ensures At(steps + [Lose(1, up, 0)], c, if up then n.(up := []) else n.(down := []))
  {
    assert Run({1}, true, steps).Some?;
    assert Without(Link(n, up), 0) == [];
    Extend(steps, Lose(1, up, 0), c, n, c, if up then n.(up := []) else n.(down := []));
  }

  lemma MulticastToOne(n: Node, ms: seq<Message>, epoch: nat, phase: nat)
    ensures Multicast(map[1 := n], ms, epoch, phase) == map[1 := n.(down := n.down + Tag(ms, epoch, phase))]
  {
  }

  lemma ByRepeat(steps: seq<Step>, c: Ctx, n: Node)
    requires At(steps, c, n) && c.phase.Some? && c.phase.value != INIT_OP
    ensures At(steps + [Repeat], c.(asked := true), n.(down := n.down + [RequestOf(c)]))
  {
    assert Run({1}, true, steps).Some?;
    var ms := [Request(c.phase.value, c.fd, c.fileName)];
    MulticastToOne(n, ms, c.epoch, c.begun);
    assert Tag(ms, c.epoch, c.begun) == [RequestOf(c)];
    Extend(steps, Repeat, c, n, c.(asked := true), n.(down := n.down + Tag(ms, c.epoch, c.begun)));
  }

  lemma ByReceive(steps: seq<Step>, c: Ctx, n: Node)
    requires At(steps, c, n) && c.phase.Some? && c.phase.value != INIT_OP && c.asked && n.up != [] && c.client.Valid()
    ensures var (d, resend) := React(c, 1, n.up[0].msg);
            At(steps + [Receive(1)], d, n.(up := n.up[1..], down := n.down + Tag(resend, c.epoch, c.begun)))
  {
    assert Run({1}, true, steps).Some?;
    var m := n.(up := n.up[1..]);
    var (d, resend) := React(c, 1, n.up[0].msg);
    assert map[1 := n][1 := m] == map[1 := m];
    MulticastToOne(m, resend, c.epoch, c.begun);
    hide React;
    Extend(steps, Receive(1), c, n, d, m.(down := m.down + Tag(resend, c.epoch, c.begun)));
  }

  lemma ByTimeOut(steps: seq<Step>, c: Ctx, n: Node)
    requires At(steps, c, n) && c.phase.Some? && c.phase.value != INIT_OP && c.asked && c.client.Valid()
    ensures At(steps + [TimeOut], Leave(c, Finish(c.client, c.phase.value, c.recv), false), n)
  {
    assert Run({1}, true, steps).Some?;
    hide Leave;
    Extend(steps, TimeOut, c, n, Leave(c, Finish(c.client, c.phase.value, c.recv), false), n);
  }

  lemma ByCall(steps: seq<Step>, step: Step, c: Ctx, n: Node)
    requires At(steps, c, n) && c.phase.None? && c.client.Valid()
    requires step == CallCommit || step == CallAbort ==> c.isFileOpen
    requires step == CallCommit || step == CallAbort || (step.CallOpen? && |step.name| == 1)
    ensures var d := if step == CallCommit then CallCtx(c, COMMIT_OP)
                     else if step == CallAbort then CallCtx(c, ABORT_OP) else CallOpenCtx(c, step.name);
            At(steps + [step], d, n)
  {
    assert Run({1}, true, steps).Some?;
    hide CallCtx, CallOpenCtx;
    Extend(steps, step, c, n,
           if step == CallCommit then CallCtx(c, COMMIT_OP)
           else if step == CallAbort then CallCtx(c, ABORT_OP) else CallOpenCtx(c, step.name), n);
  }

  lemma ByWrite(steps: seq<Step>, c: Ctx, n: Node, u: Update)
    requires At(steps, c, n) && c.phase.None? && c.isFileOpen && u.byteOffset == 0 && |u.block| == 1
    requires c.client.Valid() && c.client.updateId == 0
    ensures At(steps + [CallWrite(u)], CallWriteCtx(c, u),
               n.(down := n.down + [Tagged(WriteBlock(c.fd, 0, u), c.epoch, c.begun)]))
  {
    assert Run({1}, true, steps).Some?;
    var ms := [WriteBlock(c.fd, 0, u)];
    MulticastToOne(n, ms, c.epoch, c.begun);
    assert Tag(ms, c.epoch, c.begun) == [Tagged(ms[0], c.epoch, c.begun)];
    Extend(steps, CallWrite(u), c, n, CallWriteCtx(c, u), n.(down := n.down + Tag(ms, c.epoch, c.begun)));
  }

  /** The server after handling `t`, outside a CLOSE phase. */
  ghost function After(n: Node, t: Tagged): Node
    requires n.server.Valid()
  {
    var r := ServerStep(n.server, t.msg);
    Node(r.server, [], if r.reply.Some? then n.up + [Tagged(r.reply.value, t.epoch, t.phase)]
         else n.up, t.epoch, n.held)
  }

  lemma ByHandling(steps: seq<Step>, c: Ctx, n: Node, t: Tagged)
    requires At(steps, c, n) && n.down == [t] && n.server.Valid() && c.phase != Some(CLOSE_OP) && n.seen <= t.epoch
    ensures At(steps + [Deliver(1)], c, After(n, t))
  {
    hide At;
    ByDeliver(steps, c, n);
    assert DeliverTo(c, n) == After(n, t);
  }

  /** The request of the running phase, as sent. */
  ghost function RequestOf(c: Ctx): Tagged
    requires c.phase.Some?
  {
    Tagged(Request(c.phase.value, c.fd, c.fileName), c.epoch, c.begun)
  }

  /** The request of the running phase is sent and handled. */
  lemma ByAsking(steps: seq<Step>, c: Ctx, n: Node)
    requires At(steps, c, n) && c.phase.Some? && c.phase.value != INIT_OP && c.phase != Some(CLOSE_OP)
    requires n.down == [] && n.server.Valid() && n.seen <= c.epoch
    ensures At(steps + [Repeat, Deliver(1)], c.(asked := true), After(n, RequestOf(c)))
  {
    hide At, ServerStep;
    ByRepeat(steps, c, n);
    var m := n.(down := n.down + [RequestOf(c)]);
    assert m.down == [RequestOf(c)];
    ByHandling(steps + [Repeat], c.(asked := true), m, RequestOf(c));
    assert steps + [Repeat] + [Deliver(1)] == steps + [Repeat, Deliver(1)];
  }

  /** A block is written and handled. */
  lemma ByWriting(steps: seq<Step>, c: Ctx, n: Node, u: Update)
    requires At(steps, c, n) && c.phase.None? && c.isFileOpen && u.byteOffset == 0 && |u.block| == 1
    requires c.client.Valid() && c.client.updateId == 0 && n.down == [] && n.server.Valid() && n.seen <= c.epoch
    ensures At(steps + [CallWrite(u), Deliver(1)], CallWriteCtx(c, u),
               After(n, Tagged(WriteBlock(c.fd, 0, u), c.epoch, c.begun)))
  {
    hide At, ServerStep;
    ByWrite(steps, c, n, u);
    var t := Tagged(WriteBlock(c.fd, 0, u), c.epoch, c.begun);
    var m := n.(down := n.down + [t]);
    assert m.down == [t];
    ByHandling(steps + [CallWrite(u)], CallWriteCtx(c, u), m, t);
    assert steps + [CallWrite(u)] + [Deliver(1)] == steps + [CallWrite(u), Deliver(1)];
  }

  /** The only server has been read and counted. */
  function Counted(c: Ctx): Ctx
    requires c.phase.Some?
  {
    c.(recv := {1}, heard := c.heard[1 := FirstFrom(c.phases, Heard(c, 1), c.phase.value)])
  }

  predicate OneServer(c: Ctx) {
    c.client.numServers == 1 && c.client.serverIds == {1}
  }

  /** The only server's acknowledgement completes an OPEN, COMMIT or ABORT phase. */
  lemma ByAck(steps: seq<Step>, c: Ctx, n: Node)
    requires At(steps, c, n) && c.asked && n.up != [] && OneServer(c) && c.client.Valid() && c.recv == {}
    requires c.phase == Some(OPEN_OP) || c.phase == Some(COMMIT_OP) || c.phase == Some(ABORT_OP)
    requires MatchesOp(n.up[0].msg, c.phase.value) && n.up[0].msg.fileDesc == 0
    ensures At(steps + [Receive(1)], Leave(Counted(c), NormalReturn, true), n.(up := n.up[1..]))
  {
    hide At, Leave;
    ByReceive(steps, c, n);
    assert {} + {1} == {1} && |{1}| == 1;
    var a := OnPacket(c.client, c.phase.value, {}, c.fd, 1, n.up[0].msg);
    assert a == Reaction(c.client, {1}, [], Some(NormalReturn));
    assert n.down + Tag([], c.epoch, c.begun) == n.down;
    assert AfterPacket(c, 1, n.up[0].msg) == Counted(c);
  }

  lemma FirstVote(c: Client, fd: nat, v: nat)
    requires c.numServers == 1 && c.serverIds == {1} && c.Valid() && c.recvServerUpdateId == map[] && c.updateId == 1
    requires v <= 1
    ensures OnVoteAck(c, {}, fd, 1, 0, v)
         == Reaction(c.(recvServerUpdateId := map[1 := v]), {1}, if v == 1 then []
                     else [WriteBlock(fd, 0, c.updateMap[0])],
                     Some(if v == 1 then NormalReturn else Again))
  {
    assert {} + {1} == {1} && |{1}| == 1 && map[][1 := v] == map[1 := v];
    assert IsSmallest(map[1 := v], v) by { assert 1 in map[1 := v]; }
    SmallestIsUnique(map[1 := v], v, Smallest(map[1 := v]));
    hide Smallest, IsSmallest;
  }

  lemma VoteRead(c: Ctx, v: nat)
    requires OneServer(c) && c.client.Valid() && c.recv == {} && c.phase == Some(VOTE_OP)
    requires c.client.recvServerUpdateId == map[] && c.client.updateId == 1 && v <= 1
    ensures var d := Counted(c).(client := c.client.(recvServerUpdateId := map[1 := v]));
            React(c, 1, VoteAck(0, v)) == (if v == 1 then Leave(d, NormalReturn, true) else d.(asked := false),
                                           if v == 1 then [] else [WriteBlock(c.fd, 0, c.client.updateMap[0])])
  {
    hide *;
    VotePacketRead(c, v);
    var e := AfterPacket(c, 1, VoteAck(0, v));
    AgainStays(e);
    ReactReceive(c, 1, VoteAck(0, v), OnPacket(c.client, VOTE_OP, c.recv, c.fd, 1, VoteAck(0, v)), e);
  }

  lemma VotePacketRead(c: Ctx, v: nat)
    requires OneServer(c) && c.client.Valid() && c.recv == {} && c.phase == Some(VOTE_OP)
    requires c.client.recvServerUpdateId == map[] && c.client.updateId == 1 && v <= 1
    ensures 1 in c.client.serverIds && c.phase.value != INIT_OP
    ensures var a := OnPacket(c.client, VOTE_OP, c.recv, c.fd, 1, VoteAck(0, v));
            && a.exit == Some(if v == 1 then NormalReturn else Again)
            && a.resend == if v == 1 then [] else [WriteBlock(c.fd, 0, c.client.updateMap[0])]
    ensures var e := AfterPacket(c, 1, VoteAck(0, v));
            e == Counted(c).(client := c.client.(recvServerUpdateId := map[1 := v])) && e.phase == Some(VOTE_OP)
  {
    FirstVote(c.client, c.fd, v);
    hide OnVoteAck, FirstFrom;
  }

  /** The only server's first answer to a vote. */
  lemma ByVote(steps: seq<Step>, c: Ctx, n: Node, v: nat)
    requires At(steps, c, n) && c.asked && n.up != [] && OneServer(c) && c.client.Valid() && c.recv == {}
    requires c.phase == Some(VOTE_OP)
    requires n.up[0].msg == VoteAck(0, v) && c.client.recvServerUpdateId == map[] && c.client.updateId == 1 && v <= 1
    ensures var d := Counted(c).(client := c.client.(recvServerUpdateId := map[1 := v]));
            var m := n.(up := n.up[1..]);
            if v == 1 then At(steps + [Receive(1)], Leave(d, NormalReturn, true), m)
            else
              At(steps + [Receive(1)], d.(asked := false),
                 m.(down := m.down + [Tagged(WriteBlock(c.fd, 0, c.client.updateMap[0]), c.epoch, c.begun)]))
  {
    hide At, Leave, React;
    ByReceive(steps, c, n);
    VoteRead(c, v);
    if v == 1 {
      assert n.down + Tag([], c.epoch, c.begun) == n.down;
    } else {
      var block := WriteBlock(c.fd, 0, c.client.updateMap[0]);
      assert Tag([block], c.epoch, c.begun) == [Tagged(block, c.epoch, c.begun)];
    }
  }

  lemma AgainStays(c: Ctx)
    requires c.client.Valid() && c.phase == Some(VOTE_OP)
    ensures Leave(c, Again, true) == c.(asked := false)
  {
  }

  /** The file is open on both sides and no message is under way. */
  ghost predicate OpenAndIdle(c: Ctx, n: Node) {
    && c.phase.None? && c.isFileOpen && c.fileName == A && c.log == [] && c.epoch == 2 && !c.tainted
    && c.client == Client(1, {1}, map[], 0, map[]) && c.heard == map[1 := 1] && c.begun == 1
    && c.started == map[INIT_OP := 0, OPEN_OP := 1] && c.phases == [Phase(INIT_OP, 0), Phase(OPEN_OP, 1)]
    && n == Node(EMPTY_SERVER.(fileName := A), [], [], 1, false)
  }

  lemma Start1() returns (c: Ctx, n: Node)
    ensures At([], c, n) && c == Initial({1}, true).ctx && n == Node(EMPTY_SERVER, [], [], 0, false) && OneServer(c)
  {
    var st := Initial({1}, true);
    c, n := st.ctx, Node(EMPTY_SERVER, [], [], 0, false);
    assert st.nodes == map[1 := n];
  }

  lemma FirstOpen(c: Ctx)
    requires c == Initial({1}, true).ctx
    ensures var d := CallOpenCtx(c, A);
            && d.phase == Some(OPEN_OP) && d.recv == {} && d.client == c.client && d.fileName == A && d.log == []
              && d.epoch == 1
            && d.heard == map[1 := 0] && d.begun == 1 && d.started == map[INIT_OP := 0, OPEN_OP := 1] && !d.tainted
            && d.phases == [Phase(INIT_OP, 0), Phase(OPEN_OP, 1)] && d.wrote == 0
  {
  }

  /** The file is being opened and the server has answered, as often as asked. */
  lemma Asked() returns (steps: seq<Step>, c: Ctx, n: Node)
    ensures At(steps, c, n) && c == CallOpenCtx(Initial({1}, true).ctx, A).(asked := true)
    ensures n == Node(EMPTY_SERVER.(fileName := A), [], [Tagged(OpenFileAck(0), 1, 1)], 1, false)
  {
    steps := [];
    c, n := Start1();
    hide At;
    ByCall(steps, CallOpen(A), c, n);
    FirstOpen(c);
    steps, c := steps + [CallOpen(A)], CallOpenCtx(c, A);
    hide CallOpenCtx;
    ByAsking(steps, c, n);
    steps, c, n := steps + [Repeat, Deliver(1)], c.(asked := true), After(n, RequestOf(c));
  }

  lemma OpenCompletes(c: Ctx)
    requires c == CallOpenCtx(Initial({1}, true).ctx, A).(asked := true)
    ensures var d := Leave(Counted(c), NormalReturn, true);
            && d.phase.None? && d.isFileOpen && d.fileName == A && d.log == [] && d.epoch == 2 && !d.tainted
            && d.client == Client(1, {1}, map[], 0, map[]) && d.heard == map[1 := 1] && d.begun == 1
            && d.started == map[INIT_OP := 0, OPEN_OP := 1] && d.phases == [Phase(INIT_OP, 0), Phase(OPEN_OP, 1)]
  {
    FirstOpen(Initial({1}, true).ctx);
    hide CallOpenCtx;
    assert FirstFrom(c.phases, 0, OPEN_OP) == FirstFrom(c.phases, 1, OPEN_OP) == 1;
  }

  lemma Opening() returns (steps: seq<Step>, c: Ctx, n: Node)
    ensures At(steps, c, n) && OpenAndIdle(c, n)
  {
    steps, c, n := Asked();
    FirstOpen(Initial({1}, true).ctx);
    OpenCompletes(c);
    hide At, Leave, CallOpenCtx, Counted;
    ByAck(steps, c, n);
    steps, c, n := steps + [Receive(1)], Leave(Counted(c), NormalReturn, true), n.(up := n.up[1..]);
  }

  // -------------------------------------------------- a vote left without an agreement

  /** A block has been written and lost. */
  lemma LostBlock() returns (steps: seq<Step>, c: Ctx, n: Node)
    ensures At(steps, c, n) && c.phase.None? && c.isFileOpen && c.epoch == 2 && c.begun == 1 && c.fileName == A
    ensures c.log == []
    ensures c.client == Client(1, {1}, map[0 := U], 1, map[]) && c.started == map[INIT_OP := 0, OPEN_OP := 1]
    ensures n == Node(EMPTY_SERVER.(fileName := A), [], [], 1, false)
  {
    steps, c, n := Opening();
    hide At;
    ByWrite(steps, c, n, U);
    steps, c, n := steps + [CallWrite(U)], CallWriteCtx(c, U),
      n.(down := n.down + [Tagged(WriteBlock(c.fd, 0, U), c.epoch, c.begun)]);
    ByLoss(steps, c, n, false);
    steps, n := steps + [Lose(1, false, 0)], n.(down := []);
  }

  lemma AskedWithoutUpdate() returns (steps: seq<Step>, c: Ctx, n: Node)
    ensures At(steps, c, n) && c.phase == Some(VOTE_OP) && c.recv == {} && c.call == COMMIT_OP && c.epoch == 2
    ensures c.clear && c.asked
    ensures c.client == Client(1, {1}, map[0 := U], 1, map[]) && c.log == [] && c.fileName == A && OneServer(c)
    ensures n.server == EMPTY_SERVER.(fileName := A) && n.up == [Tagged(VoteAck(0, 0), 2, 2)] && n.down == []
    ensures n.seen == 2
  {
    steps, c, n := LostBlock();
    hide At;
    ByCall(steps, CallCommit, c, n);
    steps, c := steps + [CallCommit], CallCtx(c, COMMIT_OP);
    ByAsking(steps, c, n);
    steps, c, n := steps + [Repeat, Deliver(1)], c.(asked := true), After(n, RequestOf(c));
  }

  lemma VotedWithoutUpdate() returns (steps: seq<Step>, c: Ctx, n: Node)
    ensures At(steps, c, n) && c.phase == Some(VOTE_OP) && c.recv == {1} && c.call == COMMIT_OP && c.epoch == 2
    ensures c.clear
    ensures c.client == Client(1, {1}, map[0 := U], 1, map[1 := 0]) && c.log == [] && c.fileName == A
    ensures n.server == EMPTY_SERVER.(fileName := A) && n.up == [] && |n.down| == 1 && n.seen == 2
  {
    steps, c, n := AskedWithoutUpdate();
    hide At;
    ByVote(steps, c, n, 0);
    var t := Tagged(WriteBlock(c.fd, 0, c.client.updateMap[0]), c.epoch, c.begun);
    steps, c, n := steps + [Receive(1)],
      Counted(c).(client := c.client.(recvServerUpdateId := map[1 := 0]), asked := false),
                   n.(up := n.up[1..], down := n.down + [t]);
  }

  lemma UncheckedVote(c: Ctx)
    requires c.phase == Some(VOTE_OP) && c.client.updateMap == map[0 := U] && c.client.updateId == 1 && c.client.Valid()
    requires c.log == [] && c.fileName == A
    ensures var d := Leave(c, NormalReturn, false);
            && d.phase == Some(COMMIT_OP) && d.tainted && d.log == [Txn(A, [U])] && d.client == c.client && d.recv == {}
            && d.epoch == c.epoch + 1 && d.call == c.call
  {
    assert UpdateList(c.client.updateMap, 1) == [U];
  }

  lemma CommittingNothing() returns (steps: seq<Step>, c: Ctx, n: Node)
    ensures At(steps, c, n) && c.tainted && c.phase == Some(COMMIT_OP) && c.call == COMMIT_OP && c.recv == {}
    ensures c.epoch == 3
    ensures c.client == Client(1, {1}, map[0 := U], 1, map[1 := 0]) && c.log == [Txn(A, [U])]
    ensures n.server == EMPTY_SERVER.(fileName := A) && n.up == [] && n.down == [] && n.seen == 2
  {
    steps, c, n := VotedWithoutUpdate();
    hide At, Leave;
    ByLoss(steps, c, n, false);
    steps, n := steps + [Lose(1, false, 0)], n.(down := []);
    ByRepeat(steps, c, n);
    steps, c, n := steps + [Repeat], c.(asked := true), n.(down := n.down + [RequestOf(c)]);
    ByLoss(steps, c, n, false);
    steps, n := steps + [Lose(1, false, 0)], n.(down := []);
    ByTimeOut(steps, c, n);
    assert |{1}| == 1 && Finish(c.client, VOTE_OP, c.recv) == NormalReturn;
    UncheckedVote(c);
    steps, c := steps + [TimeOut], Leave(c, NormalReturn, false);
  }

  lemma CommitReturns(c: Ctx)
    requires c.client.Valid() && c.phase == Some(COMMIT_OP) && c.call == COMMIT_OP
    ensures var d := Leave(c, NormalReturn, true);
            d.returned == Returned(COMMIT_OP, true) && d.log == c.log && d.tainted == c.tainted
  {
  }

  /** A vote phase that times out after one round of retransmission is taken for a success,
      because the set of answers survives: Commit returns normally, and the file that was to
      hold the block is empty. */
  lemma TimedOutVoteCommitsNothing() returns (steps: seq<Step>, c: Ctx, n: Node)
    ensures At(steps, c, n) && c.tainted
    ensures c.returned == Returned(COMMIT_OP, true) && c.log == [Txn(A, [U])]
    ensures n.server.disk == map[A := []] && DiskAfter(c.log) == map[A := [1]]
  {
    steps, c, n := CommittingNothing();
    hide At, Leave;
    ByAsking(steps, c, n);
    steps, c, n := steps + [Repeat, Deliver(1)], c.(asked := true), After(n, RequestOf(c));
    assert UpdateList(map[], 0) == [];
    ByAck(steps, c, n);
    CommitReturns(Counted(c));
    steps, c, n := steps + [Receive(1)], Leave(Counted(c), NormalReturn, true), n.(up := n.up[1..]);
    DiskWithU();
  }

  lemma DiskWithU()
    ensures DiskAfter([Txn(A, [U])]) == map[A := [1]] == CommitTo(map[], A, [U])
  {
    var log := [Txn(A, [U])];
    assert log[..0] == [] && [U][..0] == [];
    assert ApplyAll([], [U]) == WriteAt(ApplyAll([], []), U) == [1];
  }

  // --------------------------------------------------------- two ABORT phases in a row

  lemma AbortsFirst(c: Ctx, n: Node)
    requires OpenAndIdle(c, n)
    ensures c.client.Valid() && n.server.Valid() && OneServer(c)
    ensures var d := CallCtx(c, ABORT_OP);
            && d.phase == Some(ABORT_OP) && d.recv == {} && d.client == c.client && !d.tainted && d.epoch == 2
              && d.isFileOpen
            && d.call == ABORT_OP && d.begun == 2 && d.heard == map[1 := 1]
            && d.started == map[INIT_OP := 0, OPEN_OP := 1, ABORT_OP := 2]
            && d.phases == [Phase(INIT_OP, 0), Phase(OPEN_OP, 1), Phase(ABORT_OP, 2)]
  {
    hide Clear, CloseSafe, CurrentTxn;
  }

  lemma AbortCompletes(c: Ctx)
    requires c.phase == Some(ABORT_OP) && c.client == Client(1, {1}, map[], 0, map[]) && !c.tainted && c.epoch == 2
    requires c.phases == [Phase(INIT_OP, 0), Phase(OPEN_OP, 1), Phase(ABORT_OP, 2)] && c.heard == map[1 := 1]
    requires c.call == ABORT_OP
    ensures var d := Leave(Counted(c), NormalReturn, true);
            && d.phase.None? && d.isFileOpen == c.isFileOpen && d.epoch == 2 && d.heard == map[1 := 2]
              && d.started == c.started
            && d.phases == c.phases && d.begun == c.begun && d.client == c.client && !d.tainted
  {
    assert FirstFrom(c.phases, 1, ABORT_OP) == FirstFrom(c.phases, 2, ABORT_OP) == 2;
    LeaveAbortFields(Counted(c), NormalReturn);
  }

  lemma AnswersAbort(c: Ctx, n: Node)
    requires c.phase == Some(ABORT_OP) && n.server == EMPTY_SERVER.(fileName := A)
    ensures After(n, RequestOf(c)) ==
              Node(n.server, [], n.up + [Tagged(AbortAck(0), c.epoch, c.begun)], c.epoch, n.held)
  {
  }

  /** An Abort with nothing cached, under way. */
  predicate Aborting(c: Ctx) {
    && c.asked && c.phase == Some(ABORT_OP) && c.recv == {} && c.call == ABORT_OP && c.isFileOpen
    && c.client == Client(1, {1}, map[], 0, map[]) && !c.tainted && c.epoch == 2 && c.begun == 2
      && c.heard == map[1 := 1]
    && c.started == map[INIT_OP := 0, OPEN_OP := 1, ABORT_OP := 2]
    && c.phases == [Phase(INIT_OP, 0), Phase(OPEN_OP, 1), Phase(ABORT_OP, 2)]
  }

  lemma AbortAnswered() returns (steps: seq<Step>, c: Ctx, n: Node)
    ensures At(steps, c, n) && Aborting(c)
    ensures n == Node(EMPTY_SERVER.(fileName := A), [], [Tagged(AbortAck(0), 2, 2)], 2, false)
  {
    steps, c, n := Opening();
    AbortsFirst(c, n);
    hide At, CallCtx;
    ByCall(steps, CallAbort, c, n);
    steps, c := steps + [CallAbort], CallCtx(c, ABORT_OP);
    ByAsking(steps, c, n);
    AnswersAbort(c, n);
    hide After, RequestOf;
    steps, c, n := steps + [Repeat, Deliver(1)], c.(asked := true), After(n, RequestOf(c));
  }

  lemma AbortAnsweredTwice() returns (steps: seq<Step>, c: Ctx, n: Node)
    ensures At(steps, c, n) && Aborting(c)
    ensures n == Node(EMPTY_SERVER.(fileName := A), [], [Tagged(AbortAck(0), 2, 2), Tagged(AbortAck(0), 2, 2)], 2,
                      false)
  {
    steps, c, n := AbortAnswered();
    hide At;
    ByAsking(steps, c, n);
    AnswersAbort(c, n);
    hide After, RequestOf;
    assert c.(asked := true) == c;
    steps, n := steps + [Repeat, Deliver(1)], After(n, RequestOf(c));
  }

  lemma AbortedWithStaleAck() returns (steps: seq<Step>, c: Ctx, n: Node)
    ensures At(steps, c, n) && c.phase.None? && c.isFileOpen && c.epoch == 2 && c.heard == map[1 := 2]
    ensures c.started == map[INIT_OP := 0, OPEN_OP := 1, ABORT_OP := 2]
    ensures c.phases == [Phase(INIT_OP, 0), Phase(OPEN_OP, 1), Phase(ABORT_OP, 2)] && c.begun == 2
    ensures c.client == Client(1, {1}, map[], 0, map[]) && !c.tainted
    ensures n.server == EMPTY_SERVER.(fileName := A) && n.down == [] && n.up == [Tagged(AbortAck(0), 2, 2)]
    ensures n.seen == 2
  {
    steps, c, n := AbortAnsweredTwice();
    AbortCompletes(c);
    hide At, Leave, Counted;
    ByAck(steps, c, n);
    steps, c, n := steps + [Receive(1)], Leave(Counted(c), NormalReturn, true), n.(up := n.up[1..]);
  }

  lemma StaleAbort() returns (steps: seq<Step>, c: Ctx, n: Node)
    ensures At(steps, c, n) && c.tainted && c.returned == Returned(ABORT_OP, true) && c.phase.None? && c.isFileOpen
    ensures c.client == Client(1, {1}, map[], 0, map[])
    ensures n.server == EMPTY_SERVER.(fileName := A, updateMap := map[0 := U]) && n.down == [] && n.seen <= c.epoch
  {
    steps, c, n := AbortedWithStaleAck();
    hide At;
    ByWriting(steps, c, n, U);
    steps, c, n := steps + [CallWrite(U), Deliver(1)], CallWriteCtx(c, U),
      After(n, Tagged(WriteBlock(c.fd, 0, U), c.epoch, c.begun));
    ByCall(steps, CallAbort, c, n);
    steps, c := steps + [CallAbort], CallCtx(c, ABORT_OP);
    ByRepeat(steps, c, n);
    steps, c, n := steps + [Repeat], c.(asked := true), n.(down := n.down + [RequestOf(c)]);
    ByLoss(steps, c, n, false);
    steps, n := steps + [Lose(1, false, 0)], n.(down := []);
    ByAck(steps, c, n);
    steps, c, n := steps + [Receive(1)], Leave(Counted(c), NormalReturn, true), n.(up := n.up[1..]);
  }

  /** The second of two ABORT phases with nothing completed between them counts an ack of
      the first: Abort returns normally while the server still holds the aborted block, and
      the next transaction's block with that id is not the one the server keeps. */
  lemma SecondAbortCountsStaleAck() returns (aborted: seq<Step>, b: Ctx, m: Node, steps: seq<Step>, c: Ctx, n: Node)
    ensures At(aborted, b, m) && b.returned == Returned(ABORT_OP, true) && !m.server.Clean()
    ensures At(steps, c, n) && c.tainted && c.client.updateMap == map[0 := V] && n.server.updateMap == map[0 := U]
  {
    aborted, b, m := StaleAbort();
    hide At;
    ByWriting(aborted, b, m, V);
    steps, c, n := aborted + [CallWrite(V), Deliver(1)], CallWriteCtx(b, V),
      After(m, Tagged(WriteBlock(b.fd, 0, V), b.epoch, b.begun));
  }

  // ----------------------------------------------------------- a COMMIT phase timing out

  lemma CheckedVoteCommits(c: Ctx)
    requires c.phase == Some(VOTE_OP) && c.client.updateMap == map[0 := U] && c.client.updateId == 1 && c.client.Valid()
    requires c.log == [] && c.fileName == A
    ensures var d := Leave(c, NormalReturn, true);
            && d.phase == Some(COMMIT_OP) && d.log == [Txn(A, [U])] && d.client == c.client && d.recv == {}
            && d.epoch == c.epoch + 1 && d.call == c.call && d.fileName == A
  {
    assert UpdateList(c.client.updateMap, 1) == [U];
  }

  lemma VotesOne(n: Node, t: Tagged)
    requires n.server == EMPTY_SERVER.(fileName := A, updateMap := map[0 := U]) && t.msg.Vote?
    ensures n.server.Valid()
    ensures After(n, t) == Node(n.server.(nextUpdateId := 1), [], n.up + [Tagged(VoteAck(0, 1), t.epoch, t.phase)],
                                t.epoch, n.held)
  {
    ResumedScanIsScanFromScratch(map[0 := U], 0);
    assert IsFirstMissing(map[0 := U], 1);
  }

  lemma Voting() returns (steps: seq<Step>, c: Ctx, n: Node)
    ensures At(steps, c, n) && c.phase == Some(VOTE_OP) && c.recv == {} && c.call == COMMIT_OP && c.epoch == 2
    ensures c.asked
    ensures c.client == Client(1, {1}, map[0 := U], 1, map[]) && c.log == [] && c.fileName == A && OneServer(c)
    ensures c.begun == 2
    ensures n == Node(EMPTY_SERVER.(fileName := A, updateMap := map[0 := U], nextUpdateId := 1), [],
                      [Tagged(VoteAck(0, 1), 2, 2)], 2, false)
  {
    steps, c, n := Opening();
    hide At;
    ByWriting(steps, c, n, U);
    steps, c, n := steps + [CallWrite(U), Deliver(1)], CallWriteCtx(c, U),
      After(n, Tagged(WriteBlock(c.fd, 0, U), c.epoch, c.begun));
    assert n == Node(EMPTY_SERVER.(fileName := A, updateMap := map[0 := U]), [], [], 2, false);
    VotesOne(n, Tagged(Vote(c.fd), 2, 2));
    ByCall(steps, CallCommit, c, n);
    steps, c := steps + [CallCommit], CallCtx(c, COMMIT_OP);
    assert c.phase == Some(VOTE_OP) && RequestOf(c) == Tagged(Vote(c.fd), 2, 2);
    hide CallCtx, After;
    ByAsking(steps, c, n);
    steps, c, n := steps + [Repeat, Deliver(1)], c.(asked := true), After(n, RequestOf(c));
  }

  lemma Agreeing() returns (steps: seq<Step>, c: Ctx, n: Node)
    ensures At(steps, c, n) && c.phase == Some(COMMIT_OP) && c.recv == {} && c.call == COMMIT_OP && c.epoch == 3
    ensures c.client == Client(1, {1}, map[0 := U], 1, map[1 := 1]) && c.log == [Txn(A, [U])] && c.fileName == A
    ensures n.server == EMPTY_SERVER.(fileName := A, updateMap := map[0 := U], nextUpdateId := 1) && n.up == []
    ensures n.down == []
    ensures n.seen == 2
  {
    steps, c, n := Voting();
    CountedFields(c);
    hide At, Leave, Counted;
    ByVote(steps, c, n, 1);
    c := Counted(c).(client := c.client.(recvServerUpdateId := map[1 := 1]));
    CheckedVoteCommits(c);
    steps, c, n := steps + [Receive(1)], Leave(c, NormalReturn, true), n.(up := n.up[1..]);
  }

  lemma AppliedUnheard() returns (steps: seq<Step>, c: Ctx, n: Node)
    ensures At(steps, c, n) && c.phase == Some(COMMIT_OP) && c.recv == {} && c.call == COMMIT_OP && c.epoch == 3
    ensures c.asked
    ensures OneServer(c) && c.client.Valid() && n.server == Server(map[A := [1]], A, map[], 0, true)
    ensures n.up == [] && n.down == [] && n.seen == 3
  {
    steps, c, n := Agreeing();
    hide At;
    ByAsking(steps, c, n);
    steps, c, n := steps + [Repeat, Deliver(1)], c.(asked := true), After(n, RequestOf(c));
    DiskWithU();
    assert UpdateList(map[0 := U], 1) == [U];
    ByLoss(steps, c, n, true);
    steps, n := steps + [Lose(1, true, 0)], n.(up := []);
  }

  lemma FailedCommitAborts(c: Ctx)
    requires c.client.Valid() && c.phase == Some(COMMIT_OP)
    ensures var d := Leave(c, ErrorReturn, false);
            && d.phase == Some(ABORT_OP) && d.tainted && d.recv == {} && d.call == c.call && d.client == c.client
            && d.epoch == c.epoch + 1
  {
  }

  lemma FailedCommitReturns(c: Ctx)
    requires c.client.Valid() && c.phase == Some(ABORT_OP) && c.call == COMMIT_OP
    ensures var d := Leave(c, NormalReturn, true);
            d.returned == Returned(COMMIT_OP, false) && d.tainted == c.tainted
  {
  }

  /** Commit returns an error after its COMMIT phase timed out, although the server has
      applied the transaction: that outcome is not atomic. */
  lemma TimedOutCommitIsNotAtomic() returns (steps: seq<Step>, c: Ctx, n: Node)
    ensures At(steps, c, n) && c.tainted && c.returned == Returned(COMMIT_OP, false)
    ensures n.server.disk == map[A := [1]]
  {
    steps, c, n := AppliedUnheard();
    hide At, Leave;
    ByTimeOut(steps, c, n);
    assert Finish(c.client, COMMIT_OP, {}) == ErrorReturn;
    FailedCommitAborts(c);
    steps, c := steps + [TimeOut], Leave(c, ErrorReturn, false);
    ByAsking(steps, c, n);
    steps, c, n := steps + [Repeat, Deliver(1)], c.(asked := true), After(n, RequestOf(c));
    ByAck(steps, c, n);
    FailedCommitReturns(Counted(c));
    steps, c, n := steps + [Receive(1)], Leave(Counted(c), NormalReturn, true), n.(up := n.up[1..]);
  }

  // ------------------------------------------------------------- two OPEN phases in a row

  lemma OpenedWithSpareAck() returns (steps: seq<Step>, c: Ctx, n: Node)
    ensures At(steps, c, n) && c.phase.None? && c.fileName == A && OneServer(c) && c.client.Valid()
    ensures !FreshFrom(c, 1, OPEN_OP)
    ensures n.server == EMPTY_SERVER.(fileName := A) && n.down == [] && n.up == [Tagged(OpenFileAck(0), 1, 1)]
  {
    steps, c, n := Asked();
    FirstOpen(Initial({1}, true).ctx);
    OpenCompletes(c);
    hide At, Leave, CallOpenCtx, Counted;
    ByAsking(steps, c, n);
    assert c.(asked := true) == c;
    steps, n := steps + [Repeat, Deliver(1)], After(n, RequestOf(c));
    assert n.up == [Tagged(OpenFileAck(0), 1, 1), Tagged(OpenFileAck(0), 1, 1)];
    ByAck(steps, c, n);
    steps, c, n := steps + [Receive(1)], Leave(Counted(c), NormalReturn, true), n.(up := n.up[1..]);
  }

  lemma OpenAgain(c: Ctx)
    requires c.phase.None? && c.fileName == A && c.client.Valid()
    ensures var d := CallOpenCtx(c, B);
            && d.phase == Some(OPEN_OP) && d.client == c.client && d.recv == {} && d.fileName == B
              && d.epoch == c.epoch + 1
            && (!FreshFrom(c, 1, OPEN_OP) && 1 in c.client.serverIds ==> d.tainted)
  {
  }

  lemma OpenEnds(c: Ctx)
    requires c.phase == Some(OPEN_OP) && c.client.Valid()
    ensures var d := Leave(c, NormalReturn, true);
            d.returned == Returned(OPEN_OP, true) && d.isFileOpen && d.fileName == c.fileName
    ensures c.tainted ==> Leave(c, NormalReturn, true).tainted
  {
  }

  /** The second of two OPEN phases counts an ack of the first: OpenFile returns a
      descriptor for one name while the server would commit to the other. */
  lemma SecondOpenCountsStaleAck() returns (steps: seq<Step>, c: Ctx, n: Node)
    ensures At(steps, c, n) && c.tainted && c.returned == Returned(OPEN_OP, true) && c.isFileOpen
    ensures c.fileName == B && n.server.fileName == A
  {
    steps, c, n := OpenedWithSpareAck();
    hide At, Leave, Counted;
    ByCall(steps, CallOpen(B), c, n);
    OpenAgain(c);
    hide CallOpenCtx;
    steps, c := steps + [CallOpen(B)], CallOpenCtx(c, B);
    ByRepeat(steps, c, n);
    steps, c, n := steps + [Repeat], c.(asked := true), n.(down := n.down + [RequestOf(c)]);
    ByAck(steps, c, n);
    CountedFields(c);
    OpenEnds(Counted(c));
    steps, c, n := steps + [Receive(1)], Leave(Counted(c), NormalReturn, true), n.(up := n.up[1..]);
  }

  lemma CountedFields(c: Ctx)
    requires c.phase.Some?
    ensures Counted(c) == c.(recv := {1}, heard := Counted(c).heard)
  {
  }

  // ------------------------------------------------------- a CLOSE after one that failed

  lemma CloseTimesOut(c: Ctx)
    requires c.phase == Some(CLOSE_OP) && !c.second && c.client.Valid()
    ensures Leave(c, ErrorReturn, false) == c.(phase := None, recv := {}, returned := Returned(CLOSE_OP, false))
  {
  }

  lemma ClosesFirst(c: Ctx, n: Node)
    requires OpenAndIdle(c, n)
    ensures c.client.Valid() && n.server.Valid()
    ensures var d := CallCtx(c, CLOSE_OP);
            && d.phase == Some(CLOSE_OP) && !d.second && d.recv == {} && d.client == c.client && d.log == []
              && !d.tainted
            && d.epoch == 2 && d.isFileOpen && d.begun == 2 && d.heard == map[1 := 1]
            && d.phases == [Phase(INIT_OP, 0), Phase(OPEN_OP, 1), Phase(CLOSE_OP, 2)]
  {
    hide Clear, CloseSafe, CurrentTxn;
  }

  lemma AnswersClose(c: Ctx, n: Node)
    requires c.phase == Some(CLOSE_OP) && c.epoch == 2 && c.begun == 2
    requires n == Node(EMPTY_SERVER.(fileName := A), [RequestOf(c)], [], 1, false)
    ensures var m := DeliverTo(c.(asked := true), n);
            && m.server == EMPTY_SERVER.(fileName := A) && m.down == [] && m.up == [Tagged(CloseAck(0), 2, 2)]
              && m.seen == 2
  {
  }

  /** CloseFile failed; its late acknowledgement is still under way. */
  lemma FailedClose() returns (steps: seq<Step>, c: Ctx, n: Node)
    ensures At(steps, c, n) && c.phase.None? && c.isFileOpen && c.epoch == 2 && !c.tainted && c.log == []
    ensures c.phases == [Phase(INIT_OP, 0), Phase(OPEN_OP, 1), Phase(CLOSE_OP, 2)] && c.begun == 2
    ensures c.heard == map[1 := 1]
    ensures c.client == Client(1, {1}, map[], 0, map[])
    ensures n.server == EMPTY_SERVER.(fileName := A) && n.down == [] && n.up == [Tagged(CloseAck(0), 2, 2)]
    ensures n.seen == 2
  {
    steps, c, n := Opening();
    ClosesFirst(c, n);
    hide At, Leave, CallCtx;
    ByClose(steps, c, n);
    steps, c, n := steps + [CallClose], CallCtx(c, CLOSE_OP), n.(held := false);
    ByRepeat(steps, c, n);
    assert n.down + [RequestOf(c)] == [RequestOf(c)];
    AnswersClose(c, n.(down := [RequestOf(c)]));
    hide DeliverTo;
    steps, c, n := steps + [Repeat], c.(asked := true), n.(down := [RequestOf(c)]);
    ByDeliver(steps, c, n);
    steps, n := steps + [Deliver(1)], DeliverTo(c, n);
    ByTimeOut(steps, c, n);
    CloseTimesOut(c);
    assert Finish(c.client, CLOSE_OP, {}) == ErrorReturn;
    steps, c := steps + [TimeOut], Leave(c, ErrorReturn, false);
  }

  lemma ByClose(steps: seq<Step>, c: Ctx, n: Node)
    requires At(steps, c, n) && c.phase.None? && c.client.Valid() && c.isFileOpen
    ensures At(steps + [CallClose], CallCtx(c, CLOSE_OP), n.(held := false))
  {
    assert Run({1}, true, steps).Some?;
    var m := n.(held := false);
    assert Unheld(map[1 := n]) == map[1 := m];
    hide CallCtx;
    Extend(steps, CallClose, c, n, CallCtx(c, CLOSE_OP), m);
  }

  /** What the second CloseFile finds: a block accepted after the CLOSE with number 2. */
  lemma ClosesAfterBlock(c: Ctx)
    requires c.phase.None? && c.client == Client(1, {1}, map[0 := U], 1, map[]) && c.log == [] && !c.tainted
    requires c.wrote == 2
    requires c.phases == [Phase(INIT_OP, 0), Phase(OPEN_OP, 1), Phase(CLOSE_OP, 2)] && c.heard == map[1 := 1]
    ensures c.client.Valid()
    ensures var d := CallCtx(c, CLOSE_OP);
            && d.phase == Some(CLOSE_OP) && !d.second && d.recv == {} && d.client == c.client && d.log == []
              && !d.tainted
            && !d.closeSafe && d.callTxn.updates == [U] && d.epoch == c.epoch
  {
    assert FirstFrom(c.phases, 1, CLOSE_OP) == FirstFrom(c.phases, 2, CLOSE_OP) == 2;
    assert !CloseFresh(c, 1);
    assert UpdateList(c.client.updateMap, 1) == [U];
    hide Clear;
  }

  lemma HoldsBlock(c: Ctx, n: Node)
    requires c.phase == Some(CLOSE_OP) && !c.second && n.server.Valid() && n.server.updateMap == map[0 := U]
    requires n.down == [RequestOf(c)] && n.up == [Tagged(CloseAck(0), 2, 2)]
    ensures var m := DeliverTo(c.(asked := true), n);
            m.held && m.server.updateMap == map[0 := U] && m.up != [] && m.up[0].msg == CloseAck(0)
  {
    assert 0 in n.server.updateMap;
  }

  lemma WrittenBlock() returns (steps: seq<Step>, c: Ctx, n: Node)
    ensures At(steps, c, n) && c.phase.None? && c.isFileOpen && c.epoch == 2 && !c.tainted && c.log == []
    ensures c.wrote == 2
    ensures c.phases == [Phase(INIT_OP, 0), Phase(OPEN_OP, 1), Phase(CLOSE_OP, 2)] && c.heard == map[1 := 1]
    ensures c.client == Client(1, {1}, map[0 := U], 1, map[]) && n.server.Valid()
    ensures n.server.updateMap == map[0 := U] && n.down == [] && n.up == [Tagged(CloseAck(0), 2, 2)]
  {
    steps, c, n := FailedClose();
    hide At, Leave;
    ByWriting(steps, c, n, U);
    steps, c, n := steps + [CallWrite(U), Deliver(1)], CallWriteCtx(c, U),
      After(n, Tagged(WriteBlock(c.fd, 0, U), c.epoch, c.begun));
  }

  lemma WrittenAfterFailedClose() returns (steps: seq<Step>, c: Ctx, n: Node)
    ensures At(steps, c, n) && FirstCloseHeld(c, n)
  {
    steps, c, n := WrittenBlock();
    ClosesAfterBlock(c);
    hide At, CallCtx;
    ByClose(steps, c, n);
    steps, c, n := steps + [CallClose], CallCtx(c, CLOSE_OP), n.(held := false);
    ByRepeat(steps, c, n);
    assert n.down + [RequestOf(c)] == [RequestOf(c)];
    HoldsBlock(c, n.(down := [RequestOf(c)]));
    hide DeliverTo;
    steps, c, n := steps + [Repeat], c.(asked := true), n.(down := [RequestOf(c)]);
    ByDeliver(steps, c, n);
    steps, n := steps + [Deliver(1)], DeliverTo(c, n);
  }

  ghost predicate FirstCloseHeld(c: Ctx, n: Node) {
    && c.phase == Some(CLOSE_OP) && c.asked && !c.second && c.recv == {} && OneServer(c) && c.client.Valid()
    && c.log == [] && !c.tainted && !c.closeSafe && c.callTxn.updates == [U]
    && n.held && n.server.updateMap == map[0 := U] && n.up != [] && n.up[0].msg == CloseAck(0)
  }

  /** CloseFile after a CloseFile that timed out and a block written since, in a run that
      kept all assumptions: it counts the late answer and returns normally, although the
      server held the block when it handled the CLOSE and nothing has been committed. */
  lemma SecondCloseCountsStaleAck() returns (steps: seq<Step>, c: Ctx, n: Node)
    ensures At(steps, c, n) && !c.tainted && c.returned == Returned(CLOSE_OP, true)
    ensures n.held && n.server.updateMap == map[0 := U] && c.log == [] && c.callTxn.updates == [U]
  {
    steps, c, n := WrittenAfterFailedClose();
    hide At;
    ByReceive(steps, c, n);
    assert {} + {1} == {1} && |{1}| == 1;
    var a := OnPacket(c.client, CLOSE_OP, {}, c.fd, 1, n.up[0].msg);
    assert a == Reaction(c.client, {1}, [], Some(NormalReturn));
    assert n.down + Tag([], c.epoch, c.begun) == n.down;
    var d := React(c, 1, n.up[0].msg).0;
    steps, c, n := steps + [Receive(1)], d, n.(up := n.up[1..]);
  }
}
