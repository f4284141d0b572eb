/** `execute` as the transition system sees it: whatever the network and the clock do, one
    call of `ClientSpec.Execute` is a run of steps of `Protocol`. */
module Execution {
  import opened Messages
  import opened Timer
  import opened ClientSpec
  import opened Protocol
  import opened Invariant
  import opened Reachability
  import opened Runs

  predicate OnNetwork(step: Step) {
    step.Lose? || step.Duplicate? || step.Reorder? || step.Deliver?
  }

  /** The network loses, repeats, reorders and delivers; the client does nothing. */
  ghost predicate Drifts(st: State, r: State)
    requires Sane(st)
  {
    exists steps :: (forall step | step in steps :: OnNetwork(step)) && RunFrom(st, steps) == Some(r)
  }

  lemma NetworkStepKeepsClient(st: State, step: Step)
    requires Sane(st) && Enabled(st, step) && OnNetwork(step)
    ensures Do(st, step).ctx == st.ctx && Do(st, step).nodes.Keys == st.nodes.Keys && !IsCall(step)
  {
    hide DeliverTo, NetworkStep;
  }

  lemma {:induction false} DriftSteps(st: State, steps: seq<Step>)
    requires Sane(st) && (forall step | step in steps :: OnNetwork(step)) && RunFrom(st, steps).Some?
    ensures RunFrom(st, steps).value.ctx == st.ctx && RunFrom(st, steps).value.nodes.Keys == st.nodes.Keys
    ensures NoCalls(steps)
  {
    if steps != [] {
      var n := |steps| - 1;
      assert steps[n] in steps;
      DriftSteps(st, steps[..n]);
      var before := RunFrom(st, steps[..n]).value;
      assert Enabled(before, steps[n]) && RunFrom(st, steps) == Some(Do(before, steps[n]));
      hide *;
      NetworkStepKeepsClient(before, steps[n]);
      OneMoreStep(steps);
    }
  }

  lemma OneMoreStep(steps: seq<Step>)
    requires steps != [] && NoCalls(steps[..|steps| - 1]) && !IsCall(steps[|steps| - 1])
    ensures NoCalls(steps)
  {
    hide IsCall;
    var n := |steps| - 1;
    assert forall step | step in steps :: step in steps[..n] || step == steps[n];
  }

  lemma DriftMeans(st: State, r: State)
    requires Sane(st) && Drifts(st, r)
    ensures Leads(st, r) && Sane(r) && r.ctx == st.ctx && r.nodes.Keys == st.nodes.Keys
  {
    var steps :| (forall step | step in steps :: OnNetwork(step)) && RunFrom(st, steps) == Some(r);
    DriftSteps(st, steps);
    hide OnNetwork, NoCalls;
  }

  /** The step by which the client reads a packet. */
  function Reading(c: Ctx, packet: Packet): Step {
    if packet.nodeId in c.client.serverIds then Protocol.Step.Receive(packet.nodeId)
    else ReceiveForeign(packet.nodeId, packet.msg)
  }

  /** A packet of a known server is the first on its link. */
  ghost predicate Arrived(st: State, packet: Packet) {
    packet.nodeId in st.ctx.client.serverIds ==>
      packet.nodeId in st.nodes && st.nodes[packet.nodeId].up != [] && st.nodes[packet.nodeId].up[0].msg == packet.msg
  }

  /** The state when the turn's request, if any, is on its way. */
  ghost function AfterSending(st: State, sends: bool): State
    requires Sane(st) && (sends ==> Enabled(st, Repeat))
  {
    if sends then Do(st, Repeat) else st
  }

  predicate Unread(call: Call, packet: Option<Packet>) {
    packet.None? || packet.value.nodeId == call.me
  }

  /** From `st` to `last`, the transition system plays the turns of one call: a request
      when its time has come, then the deadline or whatever the network does until a packet
      is read. The packets of `ticks` are those that the links offer. */
  ghost predicate Plays(call: Call, first: Time, p: Progress, ticks: seq<Tick>, st: State, last: State)
    requires p.client.Valid() && Deadline(ticks, first, call.timeout) && Sane(st)
    decreases |ticks|, 2
  {
    var sends := IsTimeOut(ticks[0].now, p.last, SEND_MSG_INTERVAL);
    && (sends ==> Enabled(st, Repeat))
    && PlaysFrom(call, first, SendRequest(call, p, ticks[0]), ticks, AfterSending(st, sends), last)
  }

  /** The turn after its request. */
  ghost predicate PlaysFrom(call: Call, first: Time, q: Progress, ticks: seq<Tick>, a: State, last: State)
    requires q.client.Valid() && Deadline(ticks, first, call.timeout) && Sane(a)
    decreases |ticks|, 1
  {
    if IsTimeOut(ticks[0].now, first, call.timeout) then
      Enabled(a, Protocol.Step.TimeOut) && last == Do(a, Protocol.Step.TimeOut)
    else
      exists e :: Drifts(a, e) && Sane(e) && PlaysOn(call, first, q, ticks, e, last)
  }

  /** The rest of the turn, if it is not the last one. */
  ghost predicate PlaysOn(call: Call, first: Time, q: Progress, ticks: seq<Tick>, e: State, last: State)
    requires q.client.Valid() && Sane(e) && ticks != []
    requires ClientSpec.Receive(call, q, ticks[0].packet).1.None? ==> Deadline(ticks[1..], first, call.timeout)
    decreases |ticks|, 0
  {
    var (next, exit) := ClientSpec.Receive(call, q, ticks[0].packet);
    if Unread(call, ticks[0].packet) then exit.None? && Plays(call, first, next, ticks[1..], e, last)
    else
      && Arrived(e, ticks[0].packet.value) && Enabled(e, Reading(e.ctx, ticks[0].packet.value))
      && var f := Do(e, Reading(e.ctx, ticks[0].packet.value));
         if exit.Some? then last == f else Plays(call, first, next, ticks[1..], f, last)
  }

  /** The running phase is this call, at this point. */
  predicate InPhase(call: Call, p: Progress, c: Ctx) {
    && call.op != INIT_OP && c.phase == Some(call.op) && c.client == p.client && c.recv == p.recv && c.fd == call.fd
    && Request(call.op, call.fd, call.name) == Request(call.op, c.fd, c.fileName)
  }

  /** The packet that ends the call, if one does, is an answer of a server the client knows. */
  ghost function EndsByMember(call: Call, first: Time, p: Progress, ticks: seq<Tick>): bool
    requires p.client.Valid() && Deadline(ticks, first, call.timeout)
    decreases |ticks|
  {
    var t, q := ticks[0], SendRequest(call, p, ticks[0]);
    !IsTimeOut(t.now, first, call.timeout) &&
    var (next, exit) := ClientSpec.Receive(call, q, t.packet);
    if exit.Some? then t.packet.Some? && t.packet.value.nodeId in p.client.serverIds
    else EndsByMember(call, first, next, ticks[1..])
  }

  /** What the call has made of the context it began in. */
  predicate InCall(c: Ctx, q: Progress, d: Ctx) {
    d == c.(asked := d.asked, client := q.client, recv := q.recv, heard := d.heard)
  }

  /** The call has returned `ret` to its caller; `checked` as in `Protocol.Leave`. */
  ghost predicate ReturnedAs(c: Ctx, q: Progress, ret: Ret, checked: bool, d: Ctx)
    requires q.client.Valid() && c.phase.Some? && c.phase.value != INIT_OP
  {
    exists e :: InCall(c, q, e) && e.asked && d == Leave(e, ret, checked)
  }

  lemma RepeatKeepsClient(st: State)
    requires Sane(st) && Enabled(st, Repeat)
    ensures Do(st, Repeat).ctx == st.ctx.(asked := true) && Do(st, Repeat).nodes.Keys == st.nodes.Keys
    ensures Sane(Do(st, Repeat)) && !IsCall(Repeat)
  {
    hide Multicast;
  }

  lemma TimeOutReturns(call: Call, q: Progress, st: State)
    requires Sane(st) && Enabled(st, Protocol.Step.TimeOut) && InPhase(call, q, st.ctx) && q.client.Valid()
    ensures ReturnedAs(st.ctx, q, Finish(q.client, call.op, q.recv), false, Do(st, Protocol.Step.TimeOut).ctx)
    ensures !IsCall(Protocol.Step.TimeOut)
  {
    var c := st.ctx;
    assert InCall(c, q, c);
    hide Leave, Finish, InCall;
    assert Do(st, Protocol.Step.TimeOut).ctx == Leave(c, Finish(q.client, call.op, q.recv), false);
  }

  /** Reading a packet does to the context what `Receive` does to the call. */
  lemma ReadingReturns(call: Call, q: Progress, st: State, packet: Packet)
    requires Sane(st) && Members(st) && InPhase(call, q, st.ctx) && q.client.Valid() && packet.nodeId != call.me
    requires Arrived(st, packet) && Enabled(st, Reading(st.ctx, packet))
    ensures var (next, exit) := ClientSpec.Receive(call, q, Some(packet));
            var d := Do(st, Reading(st.ctx, packet)).ctx;
            if exit.Some? then ReturnedAs(st.ctx, next, exit.value, packet.nodeId in q.client.serverIds, d)
            else InPhase(call, next, d) && InCall(st.ctx, next, d)
    ensures !IsCall(Reading(st.ctx, packet))
  {
    var c := st.ctx;
    assert c.client.Valid();
    var from, m := packet.nodeId, packet.msg;
    ReadingReacts(st, packet);
    var a, d := OnPacket(c.client, c.phase.value, c.recv, c.fd, from, m), AfterPacket(c, from, m);
    var next := ClientSpec.Receive(call, q, Some(packet)).0;
    ReadOrNot(call, q, Some(packet));
    ReactReceive(c, from, m, a, d);
    PacketRead(c, from, m);
    StillInPhase(call, q, next, c, d);
    hide *;
  }

  lemma StillInPhase(call: Call, q: Progress, next: Progress, c: Ctx, d: Ctx)
    requires InPhase(call, q, c) && c.asked && d == c.(client := next.client, recv := next.recv, heard := d.heard)
    ensures InPhase(call, next, d) && InCall(c, next, d) && d.asked
  {
    hide Request;
  }

  lemma PacketRead(c: Ctx, from: NodeId, m: Message)
    requires c.client.Valid() && c.phase.Some? && c.phase.value != INIT_OP
    ensures var a, d := OnPacket(c.client, c.phase.value, c.recv, c.fd, from, m), AfterPacket(c, from, m);
            d == c.(client := a.client, recv := a.recv, heard := d.heard)
  {
    hide OnPacket;
  }

  lemma ReadingReacts(st: State, packet: Packet)
    requires Sane(st) && Members(st) && Arrived(st, packet) && Enabled(st, Reading(st.ctx, packet))
    ensures st.ctx.phase.Some? && st.ctx.phase.value != INIT_OP && st.ctx.asked
    ensures Do(st, Reading(st.ctx, packet)).ctx == React(st.ctx, packet.nodeId, packet.msg).0
    ensures !IsCall(Reading(st.ctx, packet))
  {
    hide React;
    if packet.nodeId in st.ctx.client.serverIds {
      DoReceive(st, Reading(st.ctx, packet));
    } else {
      DoForeign(st, Reading(st.ctx, packet));
    }
  }

  lemma ReturnedLater(c: Ctx, d: Ctx, next: Progress, q: Progress, ret: Ret, checked: bool, e: Ctx)
    requires c.phase.Some? && c.phase.value != INIT_OP && q.client.Valid() && InCall(c, next, d) && d.phase == c.phase
    requires ReturnedAs(d, q, ret, checked, e)
    ensures ReturnedAs(c, q, ret, checked, e)
  {
    hide Leave;
    var f :| InCall(d, q, f) && f.asked && e == Leave(f, ret, checked);
    assert InCall(c, q, f);
  }

  lemma InPhaseFrame(call: Call, p: Progress, q: Progress, c: Ctx, d: Ctx)
    requires InPhase(call, p, c) && q.client == p.client && q.recv == p.recv && d == c.(asked := d.asked)
    ensures InPhase(call, q, d) && InCall(c, q, d) && c.phase.Some? && c.phase.value != INIT_OP && d.phase == c.phase
  {
  }

  lemma MembersStay(a: State, b: State, step: Step)
    requires Sane(a) && Enabled(a, step) && b == Do(a, step) && Members(a)
    ensures Members(b) && Sane(b)
  {
    hide Do, Enabled, Sane;
  }

  lemma MembersAs(a: State, b: State)
    requires Members(a) && b.ctx == a.ctx.(asked := b.ctx.asked) && b.nodes.Keys == a.nodes.Keys
    ensures Members(b)
  {
  }

  lemma EndsTurn(call: Call, first: Time, p: Progress, ticks: seq<Tick>)
    requires p.client.Valid() && Deadline(ticks, first, call.timeout)
    ensures ticks != []
    ensures var t, q := ticks[0], SendRequest(call, p, ticks[0]);
            if IsTimeOut(t.now, first, call.timeout) then !EndsByMember(call, first, p, ticks)
            else
              var (next, exit) := ClientSpec.Receive(call, q, t.packet);
              if exit.Some? then
                EndsByMember(call, first, p, ticks) == (t.packet.Some? && t.packet.value.nodeId in p.client.serverIds)
              else
                Deadline(ticks[1..], first, call.timeout)
                && EndsByMember(call, first, p, ticks) == EndsByMember(call, first, next, ticks[1..])
  {
    hide ClientSpec.Receive, IsTimeOut, SendRequest;
  }

  /** The request of the turn, if it is time for one. */
  lemma SendingTurn(call: Call, p: Progress, t: Tick, st: State)
    requires p.client.Valid() && Sane(st) && Members(st) && InPhase(call, p, st.ctx)
    requires IsTimeOut(t.now, p.last, SEND_MSG_INTERVAL) ==> Enabled(st, Repeat)
    ensures var q, a := SendRequest(call, p, t), AfterSending(st, IsTimeOut(t.now, p.last, SEND_MSG_INTERVAL));
            && Leads(st, a) && Sane(a) && Members(a) && q.client == p.client
            && InPhase(call, q, a.ctx) && InCall(st.ctx, q, a.ctx)
            && st.ctx.phase.Some? && st.ctx.phase.value != INIT_OP && a.ctx.phase == st.ctx.phase
  {
    var q, a := SendRequest(call, p, t), AfterSending(st, IsTimeOut(t.now, p.last, SEND_MSG_INTERVAL));
    SentOrNot(call, p, t);
    LeadsSelf(st);
    if IsTimeOut(t.now, p.last, SEND_MSG_INTERVAL) {
      RepeatKeepsClient(st);
      LeadsOn(st, st, Repeat);
      MembersAs(st, a);
    }
    InPhaseFrame(call, p, q, st.ctx, a.ctx);
  }

  lemma PlaysTurn(call: Call, first: Time, p: Progress, ticks: seq<Tick>, st: State, last: State)
    requires p.client.Valid() && Deadline(ticks, first, call.timeout) && Sane(st)
    requires Plays(call, first, p, ticks, st, last)
    ensures ticks != [] && (IsTimeOut(ticks[0].now, p.last, SEND_MSG_INTERVAL) ==> Enabled(st, Repeat))
    ensures var q, a := SendRequest(call, p, ticks[0]),
              AfterSending(st, IsTimeOut(ticks[0].now, p.last, SEND_MSG_INTERVAL));
            q.client.Valid() && Sane(a) && PlaysFrom(call, first, q, ticks, a, last)
  {
    hide PlaysFrom, Do, Enabled, IsTimeOut, Sane;
  }

  lemma PlaysRest(call: Call, first: Time, q: Progress, ticks: seq<Tick>, a: State, last: State) returns (e: State)
    requires q.client.Valid() && Deadline(ticks, first, call.timeout) && Sane(a)
    requires PlaysFrom(call, first, q, ticks, a, last)
    requires !IsTimeOut(ticks[0].now, first, call.timeout)
    ensures ClientSpec.Receive(call, q, ticks[0].packet).1.None? ==> Deadline(ticks[1..], first, call.timeout)
    ensures Drifts(a, e) && Sane(e) && PlaysOn(call, first, q, ticks, e, last)
  {
    hide Drifts, Sane, PlaysOn, ClientSpec.Receive, Do, Enabled;
    e :| Drifts(a, e) && Sane(e) && PlaysOn(call, first, q, ticks, e, last);
  }

  lemma PlaysLast(call: Call, first: Time, q: Progress, ticks: seq<Tick>, a: State, last: State)
    requires q.client.Valid() && Deadline(ticks, first, call.timeout) && Sane(a)
    requires PlaysFrom(call, first, q, ticks, a, last)
    requires IsTimeOut(ticks[0].now, first, call.timeout)
    ensures Enabled(a, Protocol.Step.TimeOut) && last == Do(a, Protocol.Step.TimeOut)
  {
    hide Do, Enabled, Sane;
  }

  /** Every call of `execute` outside INIT is a run of the transition system, on every
      clock and every behaviour of the network: it ends with the client, the set, the return
      value and the way out that `Execute` computes from the packets read. */
  lemma {:induction false} ExecuteIsARun(call: Call, first: Time, p: Progress, ticks: seq<Tick>, st: State, last: State)
    requires p.client.Valid() && Deadline(ticks, first, call.timeout) && Sane(st) && Members(st)
    requires InPhase(call, p, st.ctx) && Plays(call, first, p, ticks, st, last)
    ensures Leads(st, last)
    ensures var (q, ret) := Execute(call, first, p, ticks);
            call.op != INIT_OP && st.ctx.phase == Some(call.op)
            && ReturnedAs(st.ctx, q, ret, EndsByMember(call, first, p, ticks), last.ctx)
    decreases |ticks|
  {
    hide *;
    PlaysTurn(call, first, p, ticks, st, last);
    var t, q := ticks[0], SendRequest(call, p, ticks[0]);
    var a := AfterSending(st, IsTimeOut(t.now, p.last, SEND_MSG_INTERVAL));
    ExecuteTurn(call, first, p, ticks);
    EndsTurn(call, first, p, ticks);
    SendingTurn(call, p, t, st);
    PhaseRuns(call, p, st.ctx);
    if IsTimeOut(t.now, first, call.timeout) {
      PlaysLast(call, first, q, ticks, a, last);
      TimeOutReturns(call, q, a);
      LeadsOn(st, a, Protocol.Step.TimeOut);
      ReturnedLater(st.ctx, a.ctx, q, q, Finish(q.client, call.op, q.recv), false, last.ctx);
    } else {
      var e := PlaysRest(call, first, q, ticks, a, last);
      DriftMeans(a, e);
      LeadsTransitive(st, a, e);
      AskedAlready(a.ctx);
      MembersAs(a, e);
      ReadingIsARun(call, first, q, ticks, e, last);
      LeadsTransitive(st, e, last);
      var (next, exit) := ClientSpec.Receive(call, q, t.packet);
      if exit.Some? {
        ReturnedLater(st.ctx, e.ctx, q, next, exit.value, EndsByMember(call, first, p, ticks), last.ctx);
      } else {
        var (r, ret) := Execute(call, first, next, ticks[1..]);
        ReturnedLater(st.ctx, e.ctx, q, r, ret, EndsByMember(call, first, next, ticks[1..]), last.ctx);
      }
    }
  }

  lemma {:induction false} ReadingIsARun(call: Call, first: Time, q: Progress, ticks: seq<Tick>, e: State, last: State)
    requires q.client.Valid() && Sane(e) && Members(e) && ticks != [] && InPhase(call, q, e.ctx)
    requires ClientSpec.Receive(call, q, ticks[0].packet).1.None? ==> Deadline(ticks[1..], first, call.timeout)
    requires PlaysOn(call, first, q, ticks, e, last)
    ensures Leads(e, last) && e.ctx.phase.Some? && e.ctx.phase.value != INIT_OP
    ensures var (next, exit) := ClientSpec.Receive(call, q, ticks[0].packet);
            if exit.Some? then
              && ticks[0].packet.Some? && next.client.Valid()
              && ReturnedAs(e.ctx, next, exit.value, ticks[0].packet.value.nodeId in q.client.serverIds, last.ctx)
            else
              var (r, ret) := Execute(call, first, next, ticks[1..]);
              ReturnedAs(e.ctx, r, ret, EndsByMember(call, first, next, ticks[1..]), last.ctx)
    decreases |ticks|, 0
  {
    var packet := ticks[0].packet;
    var (next, exit) := ClientSpec.Receive(call, q, packet);
    PhaseRuns(call, q, e.ctx);
    ReadOrNot(call, q, packet);
    if Unread(call, packet) {
      hide *;
      ExecuteIsARun(call, first, next, ticks[1..], e, last);
    } else {
      assert packet.Some? && packet.value.nodeId != call.me && Arrived(e, packet.value);
      assert Enabled(e, Reading(e.ctx, packet.value));
      var f := Do(e, Reading(e.ctx, packet.value));
      assert if exit.Some? then last == f else Plays(call, first, next, ticks[1..], f, last);
      hide *;
      LeadsSelf(e);
      ReadingReturns(call, q, e, packet.value);
      LeadsOn(e, e, Reading(e.ctx, packet.value));
      if exit.None? {
        MembersStay(e, f, Reading(e.ctx, packet.value));
        ExecuteIsARun(call, first, next, ticks[1..], f, last);
        LeadsTransitive(e, f, last);
        var (r, ret) := Execute(call, first, next, ticks[1..]);
        SamePhase(call, next, q, f.ctx, e.ctx);
        ReturnedLater(e.ctx, f.ctx, next, r, ret, EndsByMember(call, first, next, ticks[1..]), last.ctx);
      }
    }
  }

  lemma PhaseRuns(call: Call, p: Progress, c: Ctx)
    requires InPhase(call, p, c)
    ensures call.op != INIT_OP && c.phase == Some(call.op) && c.phase.Some? && c.phase.value != INIT_OP
  {
  }

  lemma AskedAlready(c: Ctx)
    ensures c == c.(asked := c.asked)
  {
  }

  lemma SamePhase(call: Call, p: Progress, q: Progress, c: Ctx, d: Ctx)
    requires InPhase(call, p, c) && InPhase(call, q, d)
    ensures c.phase == d.phase && c.phase.Some? && c.phase.value != INIT_OP
  {
  }
}
