/** Exactly when Abort, OpenFile and CloseFile can return normally although a server has not
    done what was asked: for each call, a condition on what the client knows when it calls. */
module Returns {
  import opened Messages
  import opened ServerSpec
  import opened ClientSpec
  import opened Network
  import opened Protocol
  import opened Invariant
  import opened Preservation
  import opened Reachability
  import opened Theorems
  import opened Runs
  import opened Assumptions
  import opened Staleness
  import opened Dates
  import opened Spares
  import opened Unheard

  // --------------------------------------------------------------- counting what has been sent

  /** An answer that counts is on the way from the server. */
  ghost predicate HasAnswer(n: Node, op: Op) {
    exists i :: 0 <= i < |n.up| && n.up[i].msg == PlainAnswer(op)
  }

  /** The phase of `op` has asked and misses the answers of `rest`, which are on the way. */
  ghost predicate ToCount(st: State, rest: set<NodeId>, op: Op) {
    && st.ctx.phase == Some(op) && IsPlain(op) && st.ctx.asked && Members(st)
    && rest <= st.nodes.Keys && st.ctx.recv == st.nodes.Keys - rest
    && forall r | r in rest :: HasAnswer(st.nodes[r], op)
  }

  /** No server has done anything. */
  ghost predicate SameServers(a: map<NodeId, Node>, b: map<NodeId, Node>) {
    b.Keys == a.Keys && forall r | r in a :: b[r].server == a[r].server && b[r].held == a[r].held
  }

  /** Only answers were read since. */
  predicate OnlyHeard(c: Ctx, d: Ctx) {
    d == c.(recv := d.recv, heard := d.heard)
  }

  ghost predicate OnlyRead(a: State, b: State) {
    OnlyHeard(a.ctx, b.ctx) && SameServers(a.nodes, b.nodes)
  }

  lemma CountSets(all: set<NodeId>, rest: set<NodeId>, s: NodeId)
    requires s in rest && rest <= all
    ensures (all - rest) + {s} == all - (rest - {s})
    ensures |all - (rest - {s})| == |all| <==> rest == {s}
  {
    SubsetCardinality(all - (rest - {s}), all);
    if rest != {s} {
      var t :| t in rest && t != s;
      assert t !in all - (rest - {s});
    }
  }

  lemma ToCountMeans(st: State, rest: set<NodeId>, op: Op, s: NodeId)
    requires Sane(st) && ToCount(st, rest, op) && s in rest
    ensures st.ctx.phase == Some(op) && IsPlain(op) && op != INIT_OP && st.ctx.asked && Running(st.ctx)
    ensures st.ctx.client.Valid()
    ensures Members(st) && s in st.nodes && s in st.ctx.client.serverIds && st.ctx.client.numServers == |st.nodes.Keys|
    ensures rest <= st.nodes.Keys && st.ctx.recv == st.nodes.Keys - rest && HasAnswer(st.nodes[s], op)
  {
  }

  /** One answer is brought to the front. */
  lemma BringForward(st: State, r: State, s: NodeId, op: Op) returns (m: State)
    requires Sane(st) && Leads(st, r) && Sane(r) && s in r.nodes && HasAnswer(r.nodes[s], op)
    ensures Leads(st, m) && Sane(m) && m.ctx == r.ctx && m.nodes.Keys == r.nodes.Keys
    ensures m.nodes[s] == r.nodes[s].(up := m.nodes[s].up) && m.nodes[s].up != []
    ensures m.nodes[s].up[0].msg == PlainAnswer(op)
    ensures forall q | q in r.nodes && q != s :: m.nodes[q] == r.nodes[q]
  {
    var n := r.nodes[s];
    var i :| 0 <= i < |n.up| && n.up[i].msg == PlainAnswer(op);
    m := r.(nodes := r.nodes[s := n.(up := n.up[i..])]);
    hide *;
    LosePrefix(st, r, s, i);
    LeadsTo(st, m);
  }

  /** ... and read. */
  lemma CountHead(st: State, m: State, rest: set<NodeId>, op: Op, s: NodeId) returns (d: State, e: Ctx)
    requires Sane(st) && Leads(st, m) && Sane(m) && m.ctx.phase == Some(op) && IsPlain(op) && m.ctx.asked
    requires Running(m.ctx)
    requires s in m.nodes && s in m.ctx.client.serverIds && m.ctx.client.Valid()
    requires m.ctx.client.numServers == |m.nodes.Keys|
    requires m.nodes[s].up != [] && m.nodes[s].up[0].msg == PlainAnswer(op)
    requires rest <= m.nodes.Keys && m.ctx.recv == m.nodes.Keys - rest && s in rest
    ensures Leads(st, d) && Sane(d)
    ensures e == m.ctx.(recv := m.nodes.Keys - (rest - {s}), heard := e.heard) && e.client.Valid() && Running(e)
    ensures e.phase == Some(op)
    ensures d == State(if rest == {s} then Leave(e, NormalReturn, true) else e,
                       m.nodes[s := m.nodes[s].(up := m.nodes[s].up[1..])])
  {
    e := AfterPacket(m.ctx, s, PlainAnswer(op));
    hide *;
    DoRead(m, s);
    ReceiveIsNoCall(s);
    LeadsOn(st, m, Receive(s));
    d := Do(m, Receive(s));
    PlainReaction(m.ctx, s, PlainAnswer(op));
    CountSets(m.nodes.Keys, rest, s);
    RunningFrame(m.ctx, e);
  }

  lemma CountOne(st: State, r: State, rest: set<NodeId>, op: Op, s: NodeId) returns (d: State, e: Ctx)
    requires Sane(st) && Leads(st, r) && Sane(r) && ToCount(r, rest, op) && s in rest
    ensures Leads(st, d) && Sane(d) && SameServers(r.nodes, d.nodes)
    ensures OnlyHeard(r.ctx, e) && e.recv == r.nodes.Keys - (rest - {s})
    ensures e.client.Valid() && Running(e) && e.phase == Some(op)
    ensures d.ctx == if rest == {s} then Leave(e, NormalReturn, true) else e
    ensures forall q | q in r.nodes && q != s :: q in d.nodes && d.nodes[q] == r.nodes[q]
  {
    ToCountMeans(r, rest, op, s);
    hide *;
    var m := BringForward(st, r, s, op);
    d, e := CountHead(st, m, rest, op, s);
    OneRead(r.nodes, m.nodes, d.nodes, s);
    HeardOnly(r.ctx, e);
  }

  lemma HeardOnly(c: Ctx, d: Ctx)
    requires d == c.(recv := d.recv, heard := d.heard)
    ensures OnlyHeard(c, d)
  {
  }

  lemma OneRead(a: map<NodeId, Node>, b: map<NodeId, Node>, c: map<NodeId, Node>, s: NodeId)
    requires b.Keys == a.Keys && s in a && b[s] == a[s].(up := b[s].up) && b[s].up != []
    requires c == b[s := b[s].(up := b[s].up[1..])]
    requires forall q | q in a && q != s :: b[q] == a[q]
    ensures SameServers(a, c) && forall q | q in a && q != s :: q in c && c[q] == a[q]
  {
  }

  lemma RunningFrame(c: Ctx, e: Ctx)
    requires Running(c) && e.phase == c.phase
    ensures Running(e)
  {
  }

  lemma ReceiveIsNoCall(s: NodeId)
    ensures !IsCall(Receive(s)) && !IsCall(Deliver(s)) && !IsCall(Repeat)
  {
  }

  lemma ReadOn(a: State, r: State, d: State, rest: set<NodeId>, op: Op, s: NodeId)
    requires ToCount(r, rest, op) && OnlyRead(a, r) && s in rest && SameServers(r.nodes, d.nodes)
    requires OnlyHeard(r.ctx, d.ctx) && d.ctx.recv == r.nodes.Keys - (rest - {s})
    requires forall q | q in r.nodes && q != s :: q in d.nodes && d.nodes[q] == r.nodes[q]
    ensures ToCount(d, rest - {s}, op) && OnlyRead(a, d)
  {
    hide HasAnswer, IsPlain;
  }

  lemma ReadLast(a: State, r: State, d: State, e: Ctx)
    requires OnlyRead(a, r) && OnlyHeard(r.ctx, e) && SameServers(r.nodes, d.nodes)
    ensures OnlyHeard(a.ctx, e) && SameServers(a.nodes, d.nodes)
  {
  }

  /** All are read, and the phase ends normally. No server has done anything meanwhile. */
  lemma {:induction false} CountAll(st: State, a: State, r: State, rest: set<NodeId>, op: Op)
        returns (last: State, e: Ctx)
    requires Sane(st) && Leads(st, r) && Sane(r) && ToCount(r, rest, op) && OnlyRead(a, r) && rest != {}
    ensures Leads(st, last) && e.client.Valid() && Running(e) && e.phase == Some(op)
    ensures last.ctx == Leave(e, NormalReturn, true) && OnlyHeard(a.ctx, e) && SameServers(a.nodes, last.nodes)
    decreases rest
  {
    var s :| s in rest;
    hide *;
    var d, f := CountOne(st, r, rest, op, s);
    if rest == {s} {
      last, e := d, f;
      ReadLast(a, r, d, f);
    } else {
      NotOnly(rest, s);
      ReadOn(a, r, d, rest, op, s);
      last, e := CountAll(st, a, d, rest - {s}, op);
    }
  }

  lemma NotOnly(rest: set<NodeId>, s: NodeId)
    requires s in rest && rest != {s}
    ensures rest - {s} != {} && rest - {s} < rest
  {
    assert rest == (rest - {s}) + {s};
  }

  /** The phase asks, and some of the servers handle the request. */
  lemma AskSome(st: State, some: set<NodeId>) returns (d: State, t: Tagged)
    requires Sane(st) && Running(st.ctx) && st.ctx.phase.Some? && some <= st.nodes.Keys
    requires forall r | r in st.nodes :: st.nodes[r].down == []
    ensures Leads(st, d) && Sane(d) && d.ctx == st.ctx.(asked := true) && d.nodes.Keys == st.nodes.Keys
    ensures t == Tagged(Asking(st.ctx), st.ctx.epoch, st.ctx.begun)
    ensures forall r | r in st.nodes ::
              && st.nodes[r].server.Valid()
              && d.nodes[r] == (if r in some then DeliverTo(d.ctx, st.nodes[r].(down := [t]))
                                else st.nodes[r].(down := [t]))
  {
    t := Tagged(Asking(st.ctx), st.ctx.epoch, st.ctx.begun);
    DoRepeat(st);
    LeadsSelf(st);
    ReceiveIsNoCall(0);
    assert forall r | r in st.nodes :: st.nodes[r].server.Valid();
    hide Do, Enabled, Sane, Leads, DeliverTo, Multicast, Asking, IsCall, Running;
    LeadsOn(st, st, Repeat);
    var m := Do(st, Repeat);
    forall r | r in st.nodes
      ensures m.nodes[r] == st.nodes[r].(down := [t])
    {
      MulticastOne(st.nodes, Asking(st.ctx), st.ctx.epoch, st.ctx.begun, r);
    }
    AllValid(m);
    DeliverSome(st, m, some);
    d := m.(nodes := Handled(m.ctx, m.nodes, some));
    LeadsTo(st, d);
  }

  lemma AllValid(st: State)
    requires Sane(st)
    ensures st.ctx.client.Valid() && forall r | r in st.nodes :: st.nodes[r].server.Valid()
  {
  }

  // ------------------------------------------------------------------ a call that goes wrong

  /** The phase of `op` has just begun, the servers but `s` hold nothing, nothing is on the way
      to any server, and an answer to an earlier phase of `op` is on the way from `s`. */
  ghost predicate GoesWrong(st: State, s: NodeId, op: Op) {
    && st.ctx.phase == Some(op) && IsPlain(op) && st.ctx.recv == {} && Members(st)
    && s in st.nodes && HasAnswer(st.nodes[s], op)
    && forall r | r in st.nodes :: st.nodes[r].down == [] && (r != s ==> st.nodes[r].server.updateMap == map[])
  }

  lemma Begins(ids: set<NodeId>, fifo: bool, a: State, b: State, call: Step, s: NodeId, k: nat) returns (d: State)
    requires Sane(a) && Members(a) && Enabled(a, call) && IsCall(call) && !call.CallWrite? && !call.CallCommit?
    requires SpareRun(ids, fifo, a, b, s, k) && s in a.nodes && HasAnswer(b.nodes[s], FirstOp(call))
    ensures Occurs(ids, fifo, b) && Sane(b) && Enabled(b, call) && d == Do(b, call) && GoesWrong(d, s, FirstOp(call))
    ensures d.ctx == CalledCtx(b.ctx, call) && b.ctx == a.ctx && b.ctx.client.Valid()
    ensures d.nodes[s].server == b.nodes[s].server && (k <= a.ctx.wrote ==> b.nodes[s].server.updateMap != map[])
  {
    hide *;
    SpareRunMeans(ids, fifo, a, b, s, k);
    d := SameCall(ids, fifo, a, b, call);
    CallEffect(b, call);
    CalledLinks(b, call);
    BegunPhase(b.ctx, call);
    MembersFrom(a, d);
    forall r | r in b.nodes
      ensures b.nodes[r].down == [] && (b.nodes[r].server.updateMap != map[] <==> r == s && k <= b.ctx.wrote)
    {
      SparedAt(b, r, s, k);
      SparedUpdates(b.ctx, r, b.nodes[r], s, k);
    }
    BeginsWrong(b, d, s, call);
  }

  lemma MembersFrom(a: State, d: State)
    requires Members(a) && d.nodes.Keys == a.nodes.Keys
    requires d.ctx.client.serverIds == a.ctx.client.serverIds && d.ctx.client.numServers == a.ctx.client.numServers
    ensures Members(d)
  {
  }

  lemma BegunPhase(c: Ctx, call: Step)
    requires c.client.Valid() && IsCall(call) && !call.CallWrite? && !call.CallCommit?
    ensures CalledCtx(c, call).phase == Some(FirstOp(call)) && CalledCtx(c, call).recv == {} && IsPlain(FirstOp(call))
    ensures CalledCtx(c, call).client == c.client
  {
    hide StartPhase, BeginDecision, CloseSafe, CurrentTxn, Onward;
  }

  lemma BeginsWrong(b: State, d: State, s: NodeId, call: Step)
    requires IsCall(call) && !call.CallWrite? && !call.CallCommit? && LinksKept(b, d) && s in b.nodes
    requires d.ctx.phase == Some(FirstOp(call)) && d.ctx.recv == {} && IsPlain(FirstOp(call)) && Members(d)
    requires HasAnswer(b.nodes[s], FirstOp(call))
    requires forall r | r in b.nodes :: b.nodes[r].down == [] && (r != s ==> b.nodes[r].server.updateMap == map[])
    ensures GoesWrong(d, s, FirstOp(call)) && d.nodes[s].server == b.nodes[s].server
  {
    hide FirstOp, IsPlain;
    var i :| 0 <= i < |b.nodes[s].up| && b.nodes[s].up[i].msg == PlainAnswer(FirstOp(call));
    assert d.nodes[s].up[i].msg == PlainAnswer(FirstOp(call));
  }

  lemma AnswersNow(c: Ctx, n: Node, t: Tagged, op: Op)
    requires n.server.Valid() && n.down == [] && c.phase == Some(op) && IsPlain(op) && t.msg == Asking(c)
    ensures n.server.updateMap == map[] ==> HasAnswer(DeliverTo(c, n.(down := [t])), op)
    ensures HasAnswer(n, op) ==> HasAnswer(DeliverTo(c, n.(down := [t])), op) && HasAnswer(n.(down := [t]), op)
  {
    var m := n.(down := [t]);
    if n.server.updateMap == map[] {
      PlainServed(c, m, t);
      assert DeliverTo(c, m).up[|n.up|].msg == PlainAnswer(op);
    }
    if HasAnswer(n, op) {
      var i :| 0 <= i < |n.up| && n.up[i].msg == PlainAnswer(op);
      assert DeliverTo(c, m).up[i].msg == PlainAnswer(op) && m.up[i].msg == PlainAnswer(op) by { hide ServerStep; }
    }
  }

  /** All others handle the request; `s` does or not, as `reached` says. */
  lemma AskAround(st: State, s: NodeId, op: Op, reached: bool) returns (d: State)
    requires Sane(st) && GoesWrong(st, s, op)
    ensures Leads(st, d) && Sane(d) && d.ctx == st.ctx.(asked := true) && s in st.nodes
    ensures ToCount(d, d.nodes.Keys, op) && OnlyRead(d, d) && s in d.nodes
    ensures var n := st.nodes[s].(down := [Tagged(Asking(st.ctx), st.ctx.epoch, st.ctx.begun)]);
            n.server.Valid() && d.nodes[s] == if reached then DeliverTo(st.ctx, n) else n
  {
    WrongMeans(st, s, op);
    hide *;
    var some := if reached then st.nodes.Keys else st.nodes.Keys - {s};
    var t;
    d, t := AskSome(st, some);
    AskedAlike(st.ctx, st.nodes[s].(down := [t]));
    AskingFrame(st.ctx);
    forall r | r in st.nodes
      ensures HasAnswer(d.nodes[r], op)
    {
      AnswersAnyway(d.ctx, st.nodes[r], d.nodes[r], t, op, r in some);
    }
    CountsAll(st, d, op);
  }

  lemma AnswersAnyway(c: Ctx, n: Node, m: Node, t: Tagged, op: Op, handled: bool)
    requires n.server.Valid() && n.down == [] && c.phase == Some(op) && IsPlain(op) && t.msg == Asking(c)
    requires m == if handled then DeliverTo(c, n.(down := [t])) else n.(down := [t])
    requires HasAnswer(n, op) || (handled && n.server.updateMap == map[])
    ensures HasAnswer(m, op)
  {
    AnswersNow(c, n, t, op);
    hide DeliverTo, HasAnswer, IsPlain;
  }

  /** ... then all answers are counted, that of `s` being an old one, and the phase ends. */
  lemma GoingWrong(st: State, s: NodeId, op: Op, reached: bool) returns (last: State, e: Ctx)
    requires Sane(st) && GoesWrong(st, s, op)
    ensures Leads(st, last) && e.client.Valid() && Running(e) && e.phase == Some(op) && s in st.nodes && s in last.nodes
    ensures last.ctx == Leave(e, NormalReturn, true) && e == st.ctx.(asked := true, recv := e.recv, heard := e.heard)
    ensures var n := st.nodes[s].(down := [Tagged(Asking(st.ctx), st.ctx.epoch, st.ctx.begun)]);
            var m := if reached then DeliverTo(st.ctx, n) else n;
            n.server.Valid() && last.nodes[s].server == m.server && last.nodes[s].held == m.held
  {
    WrongMeans(st, s, op);
    hide *;
    var d := AskAround(st, s, op, reached);
    SomeKey(d.nodes, s);
    last, e := CountAll(st, d, d, d.nodes.Keys, op);
    SameServer(d.nodes, last.nodes, s);
    AskedRead(st.ctx, d.ctx, e);
  }

  lemma SomeKey(nodes: map<NodeId, Node>, s: NodeId)
    requires s in nodes
    ensures nodes.Keys != {}
  {
  }

  lemma SameServer(a: map<NodeId, Node>, b: map<NodeId, Node>, s: NodeId)
    requires SameServers(a, b) && s in a
    ensures s in b && b[s].server == a[s].server && b[s].held == a[s].held
  {
  }

  lemma AskedRead(c: Ctx, d: Ctx, e: Ctx)
    requires d == c.(asked := true) && OnlyHeard(d, e)
    ensures e == c.(asked := true, recv := e.recv, heard := e.heard)
  {
  }

  lemma WrongMeans(st: State, s: NodeId, op: Op)
    requires GoesWrong(st, s, op)
    ensures st.ctx.phase == Some(op) && IsPlain(op) && st.ctx.recv == {} && Members(st) && Running(st.ctx)
    ensures s in st.nodes && HasAnswer(st.nodes[s], op)
    ensures forall r | r in st.nodes :: st.nodes[r].down == [] && (r != s ==> st.nodes[r].server.updateMap == map[])
  {
  }

  lemma AskingFrame(c: Ctx)
    requires c.phase.Some?
    ensures Asking(c.(asked := true)) == Asking(c)
  {
  }

  lemma AskedAlike(c: Ctx, n: Node)
    requires n.down != [] && n.server.Valid()
    ensures DeliverTo(c.(asked := true), n) == DeliverTo(c, n)
  {
    hide ServerStep;
  }

  lemma CountsAll(st: State, d: State, op: Op)
    requires Members(st) && d.ctx == st.ctx.(asked := true) && d.nodes.Keys == st.nodes.Keys
    requires st.ctx.phase == Some(op) && IsPlain(op) && st.ctx.recv == {}
               && forall r | r in st.nodes :: HasAnswer(d.nodes[r], op)
    ensures ToCount(d, d.nodes.Keys, op) && OnlyRead(d, d)
  {
    assert d.ctx == d.ctx.(recv := d.ctx.recv, heard := d.ctx.heard);
    hide HasAnswer, IsPlain;
  }

  // ------------------------------------------------------------- nothing goes wrong untainted

  /** A call whose only phase is one of `op`, and in which nothing has broken, or which has
      failed. */
  predicate InCall(c: Ctx, op: Op) {
    (c.phase == Some(op) && !c.tainted) || (c.phase.None? && (c.tainted ==> c.returned != Returned(op, true)))
  }

  lemma LeaveInCall(c: Ctx, ret: Ret, checked: bool, op: Op)
    requires c.client.Valid() && c.phase == Some(op) && (op == OPEN_OP || op == ABORT_OP) && !c.tainted
    ensures InCall(Leave(c, ret, checked), op)
  {
    LeaveAbortFields(c, ret);
    AbortTaintsOnError(c, ret);
    hide LeaveAbort, LeaveVote, LeaveCommit, LeaveClose;
  }

  lemma AbortTaintsOnError(c: Ctx, ret: Ret)
    requires !c.tainted
    ensures LeaveAbort(c, ret).tainted ==> ret != NormalReturn
  {
  }

  lemma ReactInCall(c: Ctx, from: NodeId, m: Message, op: Op)
    requires c.client.Valid() && c.phase == Some(op) && (op == OPEN_OP || op == ABORT_OP) && !c.tainted
    ensures InCall(React(c, from, m).0, op)
  {
    var a, d := OnPacket(c.client, c.phase.value, c.recv, c.fd, from, m), AfterPacket(c, from, m);
    hide OnPacket, Leave, AfterPacket;
    ReactReceive(c, from, m, a, d);
    if a.exit.Some? {
      LeaveInCall(d, a.exit.value, from in c.client.serverIds, op);
    }
  }

  lemma StepInCall(st: State, step: Step, op: Op)
    requires Sane(st) && Enabled(st, step) && Members(st) && !IsCall(step) && InCall(st.ctx, op)
    requires op == OPEN_OP || op == ABORT_OP
    ensures InCall(Do(st, step).ctx, op)
  {
    AllValid(st);
    IsRunningOrNot(st, step);
    RunsOp(st.ctx, op);
    StepKinds(step);
    hide *;
    var c := st.ctx;
    if c.phase.None? {
    } else if step.Receive? {
      DoReceive(st, step);
      ReactInCall(c, step.s, st.nodes[step.s].up[0].msg, op);
    } else {
      DoOtherwise(st, step);
      if step.TimeOut? {
        LeaveInCall(c, Finish(c.client, c.phase.value, c.recv), false, op);
      } else if step.ReceiveForeign? {
        ReactInCall(c, step.from, step.m, op);
      } else {
        AskedInCall(c, op);
      }
    }
  }

  lemma RunsOp(c: Ctx, op: Op)
    requires InCall(c, op) && op != INIT_OP
    ensures c.phase.Some? ==> c.phase == Some(op) && Running(c) && !c.tainted
  {
  }

  lemma AskedInCall(c: Ctx, op: Op)
    requires InCall(c, op)
    ensures InCall(c.(asked := true), op)
  {
  }

  lemma {:induction false} RunInCall(st: State, steps: seq<Step>, op: Op)
    requires Sane(st) && Members(st) && NoCalls(steps) && RunFrom(st, steps).Some? && InCall(st.ctx, op)
    requires op == OPEN_OP || op == ABORT_OP
    ensures Members(RunFrom(st, steps).value) && InCall(RunFrom(st, steps).value.ctx, op)
  {
    if steps != [] {
      var n := |steps| - 1;
      assert steps[n] in steps;
      RunInCall(st, steps[..n], op);
      var before := RunFrom(st, steps[..n]).value;
      assert Enabled(before, steps[n]) && RunFrom(st, steps).value == Do(before, steps[n]);
      hide Do, Enabled, InCall, RunFrom, Members;
      StepInCall(before, steps[n], op);
      MembersFrom(before, Do(before, steps[n]));
    }
  }

  lemma LeadsInCall(st: State, r: State, op: Op)
    requires Sane(st) && Members(st) && Leads(st, r) && InCall(st.ctx, op) && (op == OPEN_OP || op == ABORT_OP)
    requires r.ctx.returned == Returned(op, true)
    ensures !r.ctx.tainted
  {
    var steps :| NoCalls(steps) && RunFrom(st, steps) == Some(r);
    hide RunFrom, Members;
    RunInCall(st, steps, op);
  }

  /** A call that breaks no assumption ends in a reached state if it returns normally. */
  lemma SafeCall(ids: set<NodeId>, fifo: bool, steps: seq<Step>, st: State, other: State, call: Step, r: State)
        returns (more: seq<Step>)
    requires Reached(ids, fifo, steps, st) && Enabled(st, call) && (call.CallOpen? || call.CallAbort?)
    requires Occurs(ids, fifo, other) && other.ctx == st.ctx && Sane(other) && Enabled(other, call)
    requires !Breaks(st.ctx, call)
    requires Leads(Do(other, call), r) && r.ctx.returned == Returned(FirstOp(call), true)
    ensures Reached(ids, fifo, more, r)
  {
    hide *;
    var others := SameHistory(ids, fifo, steps, st, other);
    ReachedMeans(ids, fifo, others, other);
    AssumptionsEndExactlyWhen(ids, fifo, others, other, call);
    CallKinds(call);
    CallEffect(other, call);
    BegunPhase(other.ctx, call);
    var begun := Do(other, call);
    BegunInCall(begun.ctx, FirstOp(call));
    MembersFrom(other, begun);
    OccursOn(ids, fifo, other, call);
    LeadsInCall(begun, r, FirstOp(call));
    OccursLeads(ids, fifo, begun, r);
    more := UntaintedRun(ids, fifo, r);
  }

  lemma CallKinds(call: Step)
    requires call.CallOpen? || call.CallAbort?
    ensures IsCall(call) && !call.CallWrite? && !call.CallCommit?
    ensures FirstOp(call) == if call.CallOpen? then OPEN_OP else ABORT_OP
  {
  }

  lemma BegunInCall(c: Ctx, op: Op)
    requires c.phase == Some(op) && !c.tainted
    ensures InCall(c, op)
  {
  }

  lemma UntaintedRun(ids: set<NodeId>, fifo: bool, r: State) returns (more: seq<Step>)
    requires Occurs(ids, fifo, r) && !r.ctx.tainted
    ensures Reached(ids, fifo, more, r)
  {
    more :| Run(ids, fifo, more) == Some(r);
  }

  // ------------------------------------------------------------------------------- Abort

  /** Abort has returned normally although a server holds an update. */
  ghost predicate AbortedOverUpdates(st: State) {
    st.ctx.returned == Returned(ABORT_OP, true) && exists s :: s in st.nodes && st.nodes[s].server.updateMap != map[]
  }

  /** Called now, Abort may do that. */
  ghost predicate CanAbortOverUpdates(st: State) {
    Sane(st) && Enabled(st, CallAbort) && exists r :: Leads(Do(st, CallAbort), r) && AbortedOverUpdates(r)
  }

  lemma AbortIsSafe(ids: set<NodeId>, fifo: bool, steps: seq<Step>, st: State, other: State)
    requires Reached(ids, fifo, steps, st) && Enabled(st, CallAbort) && !Breaks(st.ctx, CallAbort)
    requires Occurs(ids, fifo, other) && other.ctx == st.ctx
    ensures !CanAbortOverUpdates(other)
  {
    CallKinds(CallAbort);
    hide Do, Sane, Enabled, Breaks, Reached, Occurs, Leads, FirstOp;
    if CanAbortOverUpdates(other) {
      var r :| Leads(Do(other, CallAbort), r) && AbortedOverUpdates(r);
      var more := SafeCall(ids, fifo, steps, st, other, CallAbort, r);
      CleanBoundaries(ids, fifo, more, r);
    }
  }

  lemma AbortGoesWrong(ids: set<NodeId>, fifo: bool, steps: seq<Step>, st: State, s: NodeId) returns (b: State)
    requires Reached(ids, fifo, steps, st) && Enabled(st, CallAbort) && s in st.nodes
    requires !FreshFrom(st.ctx, s, ABORT_OP) && st.ctx.client.updateId != 0
    ensures Occurs(ids, fifo, b) && b.ctx == st.ctx && CanAbortOverUpdates(b)
  {
    hide *;
    CallKinds(CallAbort);
    ReachedMeans(ids, fifo, steps, st);
    CallBetween(st, CallAbort);
    var k := Cut(ids, fifo, steps, st, s, ABORT_OP);
    RunDated(ids, fifo, steps, st);
    WrittenSince(st.ctx);
    b := SparesRun(ids, fifo, steps, st, s, k);
    CutAnswer(ids, fifo, st, b, s, k, ABORT_OP);
    var d := Begins(ids, fifo, st, b, CallAbort, s, k);
    var last, e := GoingWrong(d, s, ABORT_OP, false);
    AbortReturns(b.ctx, e);
    AbortedOver(last, s);
    CanAbort(b, last);
  }

  lemma WrittenSince(c: Ctx)
    requires Dated(c) && c.phase.None? && c.client.updateId != 0
    ensures ABORT_OP in c.started ==> c.started[ABORT_OP] <= c.wrote
  {
  }

  /** The latest phase of `op` is the cut. */
  lemma Cut(ids: set<NodeId>, fifo: bool, steps: seq<Step>, st: State, s: NodeId, op: Op) returns (k: nat)
    requires Reached(ids, fifo, steps, st) && !FreshFrom(st.ctx, s, op) && IsPlain(op) && st.ctx.phase.None?
    ensures op in st.ctx.started && k == st.ctx.started[op]
    ensures Heard(st.ctx, s) <= k < AskedPhases(st.ctx) <= |st.ctx.phases|
    ensures k > 0 && st.ctx.phases[k].op == op
  {
    hide *;
    ReachedMeans(ids, fifo, steps, st);
    GoodMeans(st.ctx, st.nodes);
    CtxPieces(st.ctx);
    RunDated(ids, fifo, steps, st);
    UnfreshMeans(st.ctx, s, op);
    PlainIsLater(st.ctx, op);
    LatestPhase(st.ctx, op);
    k := st.ctx.started[op];
  }

  lemma CutAnswer(ids: set<NodeId>, fifo: bool, a: State, b: State, s: NodeId, k: nat, op: Op)
    requires SpareRun(ids, fifo, a, b, s, k) && s in a.nodes
    requires Heard(a.ctx, s) <= k < AskedPhases(a.ctx) <= |a.ctx.phases|
    requires a.ctx.phases[k].op == op && IsPlain(op)
    ensures s in b.nodes && HasAnswer(b.nodes[s], op)
  {
    hide *;
    CutIsOwed(ids, fifo, a, b, s, k);
    AnswerIsThere(b.nodes[s], |Answers(a.ctx.phases, Heard(a.ctx, s), k)|, op);
  }

  lemma AnswerIsThere(n: Node, i: nat, op: Op)
    requires i < |n.up| && n.up[i].msg == PlainAnswer(op)
    ensures HasAnswer(n, op)
  {
  }

  lemma AbortReturns(c: Ctx, e: Ctx)
    requires c.client.Valid() && e.client.Valid() && e.phase == Some(ABORT_OP)
    requires var d := CalledCtx(c, CallAbort); e == d.(asked := true, recv := e.recv, heard := e.heard)
    ensures Leave(e, NormalReturn, true).returned == Returned(ABORT_OP, true)
  {
    AbortIsCalled(c);
    LeaveAbortFields(e, NormalReturn);
    hide LeaveAbort, CallCtx;
  }

  lemma AbortIsCalled(c: Ctx)
    requires c.client.Valid()
    ensures CallCtx(c, ABORT_OP).call == ABORT_OP
  {
    hide Clear, CloseSafe, CurrentTxn, BeginDecision, StartPhase;
  }

  lemma AbortedOver(st: State, s: NodeId)
    requires st.ctx.returned == Returned(ABORT_OP, true) && s in st.nodes && st.nodes[s].server.updateMap != map[]
    ensures AbortedOverUpdates(st)
  {
  }

  lemma CanAbort(b: State, last: State)
    requires Sane(b) && Enabled(b, CallAbort) && Leads(Do(b, CallAbort), last) && AbortedOverUpdates(last)
    ensures CanAbortOverUpdates(b)
  {
  }

  /** The exact rule for Abort. In a run that kept the assumptions: some run with the same
      client history goes on to an Abort that returns normally although a server holds an
      update, if and only if something is cached and some server may still answer an earlier
      ABORT. */
  lemma AbortIsUnsafeIff(ids: set<NodeId>, fifo: bool, steps: seq<Step>, st: State)
    requires Reached(ids, fifo, steps, st) && Enabled(st, CallAbort)
    ensures (exists s :: s in st.nodes && !FreshFrom(st.ctx, s, ABORT_OP)) && st.ctx.client.updateId != 0 <==>
            exists other :: Occurs(ids, fifo, other) && other.ctx == st.ctx && CanAbortOverUpdates(other)
  {
    hide *;
    ReachedMeans(ids, fifo, steps, st);
    AsMember(st);
    if (exists s :: s in st.nodes && !FreshFrom(st.ctx, s, ABORT_OP)) && st.ctx.client.updateId != 0 {
      var s :| s in st.nodes && !FreshFrom(st.ctx, s, ABORT_OP);
      var b := AbortGoesWrong(ids, fifo, steps, st, s);
    } else {
      AbortKeepsOn(st.ctx);
      forall other | Occurs(ids, fifo, other) && other.ctx == st.ctx
        ensures !CanAbortOverUpdates(other)
      {
        AbortIsSafe(ids, fifo, steps, st, other);
      }
    }
  }

  lemma AbortKeepsOn(c: Ctx)
    ensures Breaks(c, CallAbort) <==>
              c.client.updateId != 0 && exists s :: s in c.client.serverIds && !FreshFrom(c, s, ABORT_OP)
  {
    hide FreshFrom;
  }

  // ----------------------------------------------------------------------------- OpenFile

  /** OpenFile has returned a descriptor although a server has another name. */
  ghost predicate OpenedElsewhere(st: State) {
    && st.ctx.returned == Returned(OPEN_OP, true)
    && exists s :: s in st.nodes && st.nodes[s].server.fileName != st.ctx.fileName
  }

  ghost predicate CanOpenElsewhere(st: State, name: Name) {
    Sane(st) && Enabled(st, CallOpen(name)) && exists r :: Leads(Do(st, CallOpen(name)), r) && OpenedElsewhere(r)
  }

  lemma OpenIsSafe(ids: set<NodeId>, fifo: bool, steps: seq<Step>, st: State, name: Name, other: State)
    requires Reached(ids, fifo, steps, st) && Enabled(st, CallOpen(name)) && !Breaks(st.ctx, CallOpen(name))
    requires Occurs(ids, fifo, other) && other.ctx == st.ctx
    ensures !CanOpenElsewhere(other, name)
  {
    CallKinds(CallOpen(name));
    hide Do, Sane, Enabled, Breaks, Reached, Occurs, Leads, FirstOp;
    if CanOpenElsewhere(other, name) {
      var r :| Leads(Do(other, CallOpen(name)), r) && OpenedElsewhere(r);
      var more := SafeCall(ids, fifo, steps, st, other, CallOpen(name), r);
      ServersKnowTheName(ids, fifo, more, r);
    }
  }

  /** A server that has answered the latest OPEN has its name. */
  lemma AnswererKnowsTheName(ids: set<NodeId>, fifo: bool, b: State, s: NodeId, t: Tagged, k: nat)
    requires Occurs(ids, fifo, b) && !b.ctx.tainted && b.ctx.phase.None? && s in b.nodes && t in b.nodes[s].up
    requires OPEN_OP in b.ctx.started && k == b.ctx.started[OPEN_OP] < |b.ctx.phases|
    requires t.epoch == b.ctx.phases[k].epoch
    ensures b.nodes[s].server.fileName == b.ctx.fileName
  {
    hide *;
    var more := UntaintedRun(ids, fifo, b);
    ReachedMeans(ids, fifo, more, b);
    GoodMeans(b.ctx, b.nodes);
    CtxPieces(b.ctx);
    NodeOf(b.ctx, b.nodes, s);
    ClosingPart(b.ctx, s, b.nodes[s]);
    LatestOpenIsCurrent(b.ctx);
    NameOf(b.ctx, s, b.nodes[s], t);
  }

  lemma LatestOpenIsCurrent(c: Ctx)
    requires PhaseInv(c) && c.phase.None? && OPEN_OP in c.started
    ensures c.started[OPEN_OP] < |c.phases| && (Deciding(c) ==> c.phases[c.started[OPEN_OP]].epoch == c.epoch)
  {
    hide OnlyDecision, HeardSince;
    assert Deciding(c) ==> c.phases[c.begun].op == OPEN_OP;
  }

  lemma NameOf(c: Ctx, s: NodeId, n: Node, t: Tagged)
    requires Core(c, s, n) && t in n.up && (Deciding(c) ==> t.epoch == c.epoch)
    ensures n.server.fileName == c.fileName
  {
    CoreParts(c, s, n);
    hide Numbered, DownOk, UpOk, Idling;
  }

  lemma OpenGoesWrong(ids: set<NodeId>, fifo: bool, steps: seq<Step>, st: State, name: Name, s: NodeId)
        returns (b: State)
    requires Reached(ids, fifo, steps, st) && Enabled(st, CallOpen(name)) && s in st.nodes
    requires !FreshFrom(st.ctx, s, OPEN_OP) && name != st.ctx.fileName
    ensures Occurs(ids, fifo, b) && b.ctx == st.ctx && CanOpenElsewhere(b, name)
  {
    hide *;
    CallKinds(CallOpen(name));
    ReachedMeans(ids, fifo, steps, st);
    NotTainted(ids, fifo, steps, st);
    CallBetween(st, CallOpen(name));
    var k := Cut(ids, fifo, steps, st, s, OPEN_OP);
    b := SparesRun(ids, fifo, steps, st, s, k);
    CutAnswer(ids, fifo, st, b, s, k, OPEN_OP);
    CutIsOwed(ids, fifo, st, b, s, k);
    var d := Begins(ids, fifo, st, b, CallOpen(name), s, k);
    AnswererKnowsTheName(ids, fifo, b, s, b.nodes[s].up[|Answers(st.ctx.phases, Heard(st.ctx, s), k)|], k);
    var last, e := GoingWrong(d, s, OPEN_OP, false);
    OpenReturns(b.ctx, name, e);
    OpenedWrong(last, s);
    CanOpen(b, name, last);
  }

  lemma OpenReturns(c: Ctx, name: Name, e: Ctx)
    requires c.client.Valid() && e.client.Valid() && e.phase == Some(OPEN_OP)
    requires var d := CalledCtx(c, CallOpen(name)); e == d.(asked := true, recv := e.recv, heard := e.heard)
    ensures Leave(e, NormalReturn, true).returned == Returned(OPEN_OP, true)
    ensures Leave(e, NormalReturn, true).fileName == name
  {
    CalledName(c, name);
    hide CallOpenCtx;
  }

  lemma CalledName(c: Ctx, name: Name)
    ensures CallOpenCtx(c, name).fileName == name
  {
    BeginFields(Naming(c), OPEN_OP);
    BeginFields(Naming(c).(prevName := c.fileName, fileName := name), OPEN_OP);
    hide StartPhase, BeginDecision, Onward;
  }

  lemma OpenedWrong(st: State, s: NodeId)
    requires st.ctx.returned == Returned(OPEN_OP, true) && s in st.nodes
    requires st.nodes[s].server.fileName != st.ctx.fileName
    ensures OpenedElsewhere(st)
  {
  }

  lemma CanOpen(b: State, name: Name, last: State)
    requires Sane(b) && Enabled(b, CallOpen(name)) && Leads(Do(b, CallOpen(name)), last) && OpenedElsewhere(last)
    ensures CanOpenElsewhere(b, name)
  {
  }

  /** The exact rule for OpenFile. In a run that kept the assumptions: some run with the same
      client history goes on to an OpenFile that returns a descriptor although a server would
      commit to another file, if and only if the name is not the one asked for last and some
      server may still answer an earlier OPEN. */
  lemma OpenIsUnsafeIff(ids: set<NodeId>, fifo: bool, steps: seq<Step>, st: State, name: Name)
    requires Reached(ids, fifo, steps, st) && Enabled(st, CallOpen(name))
    ensures (exists s :: s in st.nodes && !FreshFrom(st.ctx, s, OPEN_OP)) && name != st.ctx.fileName <==>
            exists other :: Occurs(ids, fifo, other) && other.ctx == st.ctx && CanOpenElsewhere(other, name)
  {
    hide *;
    ReachedMeans(ids, fifo, steps, st);
    AsMember(st);
    if (exists s :: s in st.nodes && !FreshFrom(st.ctx, s, OPEN_OP)) && name != st.ctx.fileName {
      var s :| s in st.nodes && !FreshFrom(st.ctx, s, OPEN_OP);
      var b := OpenGoesWrong(ids, fifo, steps, st, name, s);
    } else {
      OpenKeepsOn(st.ctx, name);
      forall other | Occurs(ids, fifo, other) && other.ctx == st.ctx
        ensures !CanOpenElsewhere(other, name)
      {
        OpenIsSafe(ids, fifo, steps, st, name, other);
      }
    }
  }

  lemma OpenKeepsOn(c: Ctx, name: Name)
    ensures Breaks(c, CallOpen(name)) <==>
              name != c.fileName && exists s :: s in c.client.serverIds && !FreshFrom(c, s, OPEN_OP)
  {
    hide FreshFrom;
  }

  // ---------------------------------------------------------------------------- CloseFile

  /** CloseFile has returned normally without a commit, although a server held an update
      when it handled a CLOSE of the call's first pass. */
  ghost predicate ClosedOverUpdates(st: State) {
    && st.ctx.returned == Returned(CLOSE_OP, true) && |st.ctx.log| == st.ctx.callLog && !st.ctx.tainted
    && exists s :: s in st.nodes && st.nodes[s].held
  }

  ghost predicate CanCloseOverUpdates(st: State) {
    Sane(st) && Enabled(st, CallClose) && exists r :: Leads(Do(st, CallClose), r) && ClosedOverUpdates(r)
  }

  lemma StaysInCall(st: State, step: Step)
    requires Sane(st) && Enabled(st, step) && !IsCall(step)
    ensures Do(st, step).ctx.closeSafe == st.ctx.closeSafe
  {
    hide DoPhase, DeliverTo, NetworkStep;
  }

  lemma {:induction false} RunStaysInCall(st: State, steps: seq<Step>)
    requires Sane(st) && NoCalls(steps) && RunFrom(st, steps).Some?
    ensures RunFrom(st, steps).value.ctx.closeSafe == st.ctx.closeSafe
  {
    if steps != [] {
      var n := |steps| - 1;
      assert steps[n] in steps;
      RunStaysInCall(st, steps[..n]);
      StaysInCall(RunFrom(st, steps[..n]).value, steps[n]);
      hide Do, Enabled, Sane;
    }
  }

  lemma CloseRecords(c: Ctx)
    requires c.client.Valid()
    ensures var d := CallCtx(c, CLOSE_OP);
            d.closeSafe == CloseSafe(c) && d.callLog == |d.log| && d.tainted == c.tainted && !d.second
  {
    hide CloseSafe, CurrentTxn, BeginDecision, Clear;
  }

  lemma CloseIsCalled(c: Ctx)
    requires c.client.Valid()
    ensures CalledCtx(c, CallClose) == CallCtx(c, CLOSE_OP) && IsCall(CallClose) && FirstOp(CallClose) == CLOSE_OP
  {
    hide CallCtx;
  }

  lemma CloseIsSafe(ids: set<NodeId>, fifo: bool, other: State)
    requires Occurs(ids, fifo, other) && Sane(other) && Enabled(other, CallClose) && CloseSafe(other.ctx)
    ensures !CanCloseOverUpdates(other)
  {
    AllValid(other);
    CloseIsCalled(other.ctx);
    CallEffect(other, CallClose);
    CloseRecords(other.ctx);
    OccursOn(ids, fifo, other, CallClose);
    var begun := Do(other, CallClose);
    hide Do, Enabled, Sane, Occurs, NoCalls, CallCtx, CalledCtx, CloseSafe;
    forall r | Leads(begun, r)
      ensures !ClosedOverUpdates(r)
    {
      var more :| NoCalls(more) && RunFrom(begun, more) == Some(r);
      RunStaysInCall(begun, more);
      OccursLeads(ids, fifo, begun, r);
      SafeStateIsClosed(ids, fifo, r);
    }
  }

  lemma SafeStateIsClosed(ids: set<NodeId>, fifo: bool, r: State)
    requires Occurs(ids, fifo, r) && r.ctx.closeSafe
    ensures !ClosedOverUpdates(r)
  {
    if ClosedOverUpdates(r) {
      var more := UntaintedRun(ids, fifo, r);
      hide Occurs;
      CloseFileCommits(ids, fifo, more, r);
    }
  }

  /** A server that holds an update handles a CLOSE of the first pass. */
  lemma HoldsAtClose(c: Ctx, n: Node, t: Tagged)
    requires c.phase == Some(CLOSE_OP) && !c.second && n.server.Valid() && n.server.updateMap != map[]
    requires n.down != [] && n.down[0] == t && t.msg == Asking(c)
    ensures DeliverTo(c, n).held
  {
  }

  lemma CloseReturns(c: Ctx, e: Ctx)
    requires e.client.Valid() && e.phase == Some(CLOSE_OP) && c.callLog == |c.log| && !c.tainted
    requires e == c.(asked := true, recv := e.recv, heard := e.heard)
    ensures var d := Leave(e, NormalReturn, true);
            d.returned == Returned(CLOSE_OP, true) && |d.log| == d.callLog && !d.tainted
  {
    hide StartPhase;
  }

  lemma ClosedOver(st: State, s: NodeId)
    requires st.ctx.returned == Returned(CLOSE_OP, true) && |st.ctx.log| == st.ctx.callLog && !st.ctx.tainted
    requires s in st.nodes && st.nodes[s].held
    ensures ClosedOverUpdates(st)
  {
  }

  lemma CanClose(b: State, last: State)
    requires Sane(b) && Enabled(b, CallClose) && Leads(Do(b, CallClose), last) && ClosedOverUpdates(last)
    ensures CanCloseOverUpdates(b)
  {
  }

  /** A CLOSE that a server may still answer was sent before the latest block. */
  lemma OldClose(c: Ctx, s: NodeId)
    requires PhaseInv(c) && Dated(c) && c.phase.None? && !CloseFresh(c, s)
    ensures var k := FirstFrom(c.phases, Heard(c, s), CLOSE_OP);
            && Heard(c, s) <= k <= c.wrote && 0 < k < AskedPhases(c) <= |c.phases| && c.phases[k].op == CLOSE_OP
  {
    hide OnlyDecision, HeardSince, Repeats;
  }

  lemma CloseGoesWrong(ids: set<NodeId>, fifo: bool, steps: seq<Step>, st: State, s: NodeId) returns (b: State)
    requires Reached(ids, fifo, steps, st) && Enabled(st, CallClose) && s in st.nodes && !CloseFresh(st.ctx, s)
    ensures Occurs(ids, fifo, b) && b.ctx == st.ctx && CanCloseOverUpdates(b)
  {
    hide *;
    var c := st.ctx;
    ReachedMeans(ids, fifo, steps, st);
    NotTainted(ids, fifo, steps, st);
    GoodMeans(c, st.nodes);
    CtxPieces(c);
    CloseIsCalled(c);
    CloseOnly();
    CallBetween(st, CallClose);
    RunDated(ids, fifo, steps, st);
    OldClose(c, s);
    var k := FirstFrom(c.phases, Heard(c, s), CLOSE_OP);
    b := SparesRun(ids, fifo, steps, st, s, k);
    CutAnswer(ids, fifo, st, b, s, k, CLOSE_OP);
    var d := Begins(ids, fifo, st, b, CallClose, s, k);
    CloseRecords(c);
    var last, e := GoingWrong(d, s, CLOSE_OP, true);
    WrongMeans(d, s, CLOSE_OP);
    HoldsAtClose(d.ctx, d.nodes[s].(down := [Tagged(Asking(d.ctx), d.ctx.epoch, d.ctx.begun)]),
                 Tagged(Asking(d.ctx), d.ctx.epoch, d.ctx.begun));
    CloseReturns(d.ctx, e);
    ClosedOver(last, s);
    CanClose(b, last);
  }

  lemma CloseOnly()
    ensures !CallClose.CallWrite? && !CallClose.CallCommit? && IsPlain(CLOSE_OP)
  {
  }

  /** The exact rule for CloseFile. In a run that kept the assumptions: some run with the same
      client history goes on to a CloseFile that returns normally although a server held an
      update when it handled the CLOSE and nothing has been committed, if and only if some
      server may still answer a CLOSE sent before the latest block was accepted. */
  lemma CloseFileIsUnsafeIff(ids: set<NodeId>, fifo: bool, steps: seq<Step>, st: State)
    requires Reached(ids, fifo, steps, st) && Enabled(st, CallClose)
    ensures (exists s :: s in st.nodes && !CloseFresh(st.ctx, s)) <==>
            exists other :: Occurs(ids, fifo, other) && other.ctx == st.ctx && CanCloseOverUpdates(other)
  {
    hide *;
    ReachedMeans(ids, fifo, steps, st);
    AsMember(st);
    if exists s :: s in st.nodes && !CloseFresh(st.ctx, s) {
      var s :| s in st.nodes && !CloseFresh(st.ctx, s);
      var b := CloseGoesWrong(ids, fifo, steps, st, s);
    } else {
      CloseIsCalled(st.ctx) by { AllValid(st); }
      AllCloseFresh(st.ctx);
      forall other | Occurs(ids, fifo, other) && other.ctx == st.ctx
        ensures !CanCloseOverUpdates(other)
      {
        OccursSane(ids, fifo, other);
        EnabledAlike(st, other, CallClose);
        CloseIsSafe(ids, fifo, other);
      }
    }
  }

  lemma AllCloseFresh(c: Ctx)
    requires forall s | s in c.client.serverIds :: CloseFresh(c, s)
    ensures CloseSafe(c)
  {
    hide CloseFresh;
  }
}
