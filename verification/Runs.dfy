/** Ways to build runs: steps one after another, messages lost or handled for many servers. */
module Runs {
  import opened Messages
  import opened Network
  import opened Protocol

  predicate IsCall(step: Step) {
    step.CallOpen? || step.CallWrite? || step.CallCommit? || step.CallAbort? || step.CallClose?
  }

  /** What a call makes of the client and the history. */
  ghost function CalledCtx(c: Ctx, call: Step): Ctx
    requires c.client.Valid() && IsCall(call)
  {
    match call
    case CallOpen(name) => CallOpenCtx(c, name)
    case CallWrite(u) => CallWriteCtx(c, u)
    case CallCommit => CallCtx(c, COMMIT_OP)
    case CallAbort => CallCtx(c, ABORT_OP)
    case CallClose => CallCtx(c, CLOSE_OP)
  }

  /** A call reads the client only, and at most sends one block to all. */
  function CalledNodes(st: State, call: Step): (r: map<NodeId, Node>)
    ensures r.Keys == st.nodes.Keys
  {
    if call.CallWrite? then
      Multicast(st.nodes, [WriteBlock(st.ctx.fd, st.ctx.client.updateId, call.u)], st.ctx.epoch, st.ctx.begun)
    else if call.CallClose? then Unheld(st.nodes)
    else st.nodes
  }

  lemma CallEffect(st: State, call: Step)
    requires Sane(st) && Enabled(st, call) && IsCall(call)
    ensures st.ctx.client.Valid() && Do(st, call) == State(CalledCtx(st.ctx, call), CalledNodes(st, call))
  {
    hide Multicast, CallCtx, CallOpenCtx, CallWriteCtx, Unheld, Onward;
  }

  predicate NoCalls(steps: seq<Step>) {
    forall step | step in steps :: !IsCall(step)
  }

  lemma {:induction false} RunConcat(st: State, xs: seq<Step>, ys: seq<Step>)
    requires Sane(st) && RunFrom(st, xs).Some?
    ensures RunFrom(st, xs + ys) == RunFrom(RunFrom(st, xs).value, ys)
  {
    var all := xs + ys;
    hide Do, Enabled;
    if ys == [] {
      assert all == xs;
    } else {
      var n := |ys| - 1;
      assert all[..|all| - 1] == xs + ys[..n] && all[|all| - 1] == ys[n];
      RunConcat(st, xs, ys[..n]);
    }
  }

  /** A run that the client's application does not interrupt: no call is made. */
  ghost predicate Leads(st: State, r: State)
    requires Sane(st)
  {
    exists steps :: NoCalls(steps) && RunFrom(st, steps) == Some(r)
  }

  /** The state ends some run. */
  ghost predicate Occurs(ids: set<NodeId>, fifo: bool, st: State) {
    exists steps :: Run(ids, fifo, steps) == Some(st)
  }

  lemma LeadsSelf(st: State)
    requires Sane(st)
    ensures Leads(st, st)
  {
    assert NoCalls([]) && RunFrom(st, []) == Some(st);
  }

  lemma LeadsTo(st: State, r: State)
    requires Sane(st) && Leads(st, r)
    ensures Sane(r)
  {
  }

  lemma LeadsOn(st: State, r: State, step: Step)
    requires Sane(st) && Leads(st, r) && Sane(r) && Enabled(r, step) && !IsCall(step)
    ensures Leads(st, Do(r, step)) && Sane(Do(r, step))
  {
    hide Do, Enabled, Sane, IsCall;
    var steps :| NoCalls(steps) && RunFrom(st, steps) == Some(r);
    var all := steps + [step];
    assert all[..|all| - 1] == steps && all[|all| - 1] == step;
    assert NoCalls(all) && RunFrom(st, all) == Some(Do(r, step));
  }

  lemma LeadsTransitive(a: State, b: State, c: State)
    requires Sane(a) && Leads(a, b) && Sane(b) && Leads(b, c)
    ensures Leads(a, c)
  {
    hide Sane, RunFrom;
    var xs :| NoCalls(xs) && RunFrom(a, xs) == Some(b);
    var ys :| NoCalls(ys) && RunFrom(b, ys) == Some(c);
    RunConcat(a, xs, ys);
    assert NoCalls(xs + ys);
  }

  lemma OccursOn(ids: set<NodeId>, fifo: bool, st: State, step: Step)
    requires Occurs(ids, fifo, st) && Sane(st) && Enabled(st, step)
    ensures Occurs(ids, fifo, Do(st, step)) && Sane(Do(st, step))
  {
    hide Do, Enabled, Sane;
    var steps :| Run(ids, fifo, steps) == Some(st);
    var all := steps + [step];
    assert all[..|all| - 1] == steps && all[|all| - 1] == step;
    assert Run(ids, fifo, all) == Some(Do(st, step));
  }

  lemma OccursLeads(ids: set<NodeId>, fifo: bool, a: State, b: State)
    requires Occurs(ids, fifo, a) && Sane(a) && Leads(a, b)
    ensures Occurs(ids, fifo, b) && Sane(b)
  {
    LeadsTo(a, b);
    hide Sane, RunFrom;
    var xs :| Run(ids, fifo, xs) == Some(a);
    var ys :| NoCalls(ys) && RunFrom(a, ys) == Some(b);
    RunConcat(Initial(ids, fifo), xs, ys);
    assert Run(ids, fifo, xs + ys) == Some(b);
  }

  lemma OccursSane(ids: set<NodeId>, fifo: bool, st: State)
    requires Occurs(ids, fifo, st)
    ensures Sane(st)
  {
  }

  // ------------------------------------------------------------------- losing everything

  /** A node after all that was sent to it, and maybe also all that it sent, was lost. */
  function Bare(n: Node, both: bool): Node {
    n.(down := [], up := if both then [] else n.up)
  }

  function BareNodes(nodes: map<NodeId, Node>, some: set<NodeId>, both: bool): (r: map<NodeId, Node>)
    ensures r.Keys == nodes.Keys
  {
    map s | s in nodes :: if s in some then Bare(nodes[s], both) else nodes[s]
  }

  lemma LoseFirst(st: State, s: NodeId, up: bool)
    requires Sane(st) && s in st.nodes && Link(st.nodes[s], up) != []
    ensures Enabled(st, Lose(s, up, 0))
    ensures var r := Do(st, Lose(s, up, 0));
            r == st.(nodes := st.nodes[s := WithLink(st.nodes[s], up, Link(st.nodes[s], up)[1..])])
  {
    assert Without(Link(st.nodes[s], up), 0) == Link(st.nodes[s], up)[1..];
  }

  lemma BareAgain(nodes: map<NodeId, Node>, s: NodeId, up: bool, q: Queue, both: bool)
    requires s in nodes && (up ==> both)
    ensures var r := nodes[s := WithLink(nodes[s], up, q)]; r[s := Bare(r[s], both)] == nodes[s := Bare(nodes[s], both)]
    ensures nodes[s].down == [] && (both ==> nodes[s].up == []) ==> nodes[s := Bare(nodes[s], both)] == nodes
  {
  }

  lemma {:induction false} LoseLinks(st: State, r: State, s: NodeId, both: bool)
    requires Sane(st) && Leads(st, r) && Sane(r) && s in r.nodes
    ensures Leads(st, r.(nodes := r.nodes[s := Bare(r.nodes[s], both)]))
    decreases |r.nodes[s].up| + |r.nodes[s].down|
  {
    var n := r.nodes[s];
    hide Leads, Sane, Do, Enabled, Bare;
    if n.down == [] && (both ==> n.up == []) {
      BareAgain(r.nodes, s, false, [], both);
    } else {
      var up := n.down == [];
      LoseFirst(r, s, up);
      LeadsOn(st, r, Lose(s, up, 0));
      LoseLinks(st, Do(r, Lose(s, up, 0)), s, both);
      BareAgain(r.nodes, s, up, Link(n, up)[1..], both);
    }
  }

  lemma BareOneMore(nodes: map<NodeId, Node>, some: set<NodeId>, s: NodeId, both: bool)
    requires s in some && s in nodes
    ensures var r := BareNodes(nodes, some - {s}, both);
            BareNodes(nodes, some, both) == r[s := Bare(r[s], both)]
  {
    hide Bare;
  }

  lemma {:induction false} LoseSome(st: State, r: State, some: set<NodeId>, both: bool)
    requires Sane(st) && Leads(st, r) && Sane(r) && some <= r.nodes.Keys
    ensures Leads(st, r.(nodes := BareNodes(r.nodes, some, both)))
    decreases some
  {
    hide Leads, Sane, Bare, BareNodes;
    if some == {} {
      BareNone(r.nodes, both);
    } else {
      var s :| s in some;
      var mid := r.(nodes := BareNodes(r.nodes, some - {s}, both));
      LoseSome(st, r, some - {s}, both);
      LeadsTo(st, mid);
      LoseLinks(st, mid, s, both);
      BareOneMore(r.nodes, some, s, both);
    }
  }

  lemma BareNone(nodes: map<NodeId, Node>, both: bool)
    ensures BareNodes(nodes, {}, both) == nodes
  {
  }

  /** The network can lose all that is under way, or all that is on the way to the servers. */
  lemma LoseAll(st: State, both: bool)
    requires Sane(st)
    ensures Leads(st, st.(nodes := BareNodes(st.nodes, st.nodes.Keys, both)))
    ensures Sane(st.(nodes := BareNodes(st.nodes, st.nodes.Keys, both)))
  {
    LeadsSelf(st);
    LoseSome(st, st, st.nodes.Keys, both);
  }

  /** It can also lose just the first few messages of a server. */
  lemma {:induction false} LosePrefix(st: State, r: State, s: NodeId, i: nat)
    requires Sane(st) && Leads(st, r) && Sane(r) && s in r.nodes && i <= |r.nodes[s].up|
    ensures Leads(st, r.(nodes := r.nodes[s := r.nodes[s].(up := r.nodes[s].up[i..])]))
    decreases i
  {
    hide Leads, Sane, Do, Enabled;
    var n := r.nodes[s];
    if i == 0 {
      assert n.up[0..] == n.up && r.nodes[s := n] == r.nodes;
    } else {
      LoseFirst(r, s, true);
      LeadsOn(st, r, Lose(s, true, 0));
      LosePrefix(st, Do(r, Lose(s, true, 0)), s, i - 1);
      assert n.up[1..][i - 1..] == n.up[i..];
      assert r.nodes[s := n.(up := n.up[1..])][s := n.(up := n.up[i..])] == r.nodes[s := n.(up := n.up[i..])];
    }
  }

  // ---------------------------------------------------------------- one message to each

  ghost function Handled(c: Ctx, nodes: map<NodeId, Node>, some: set<NodeId>): (r: map<NodeId, Node>)
    requires some <= nodes.Keys && forall s | s in some :: nodes[s].down != [] && nodes[s].server.Valid()
    ensures r.Keys == nodes.Keys
  {
    map s | s in nodes :: if s in some then DeliverTo(c, nodes[s]) else nodes[s]
  }

  lemma HandledOneMore(c: Ctx, nodes: map<NodeId, Node>, some: set<NodeId>, s: NodeId)
    requires some <= nodes.Keys && (forall r | r in some :: nodes[r].down != [] && nodes[r].server.Valid()) && s in some
    ensures var r := Handled(c, nodes, some - {s});
            r[s] == nodes[s] && Handled(c, nodes, some) == r[s := DeliverTo(c, r[s])]
  {
    hide DeliverTo;
  }

  lemma HandledNone(c: Ctx, nodes: map<NodeId, Node>)
    ensures Handled(c, nodes, {}) == nodes
  {
  }

  lemma DoDeliver(st: State, s: NodeId)
    requires Sane(st) && s in st.nodes && st.nodes[s].down != []
    ensures Enabled(st, Deliver(s)) && Do(st, Deliver(s)) == st.(nodes := st.nodes[s := DeliverTo(st.ctx, st.nodes[s])])
  {
    hide DeliverTo;
  }

  lemma {:induction false} DeliverSome(st: State, r: State, some: set<NodeId>)
    requires Sane(st) && Leads(st, r) && Sane(r) && some <= r.nodes.Keys
               && forall s | s in some :: r.nodes[s].down != []
    ensures Leads(st, r.(nodes := Handled(r.ctx, r.nodes, some)))
    decreases some
  {
    hide DeliverTo, Leads, Handled, Do, Enabled;
    if some == {} {
      HandledNone(r.ctx, r.nodes);
    } else {
      var s :| s in some;
      var mid := r.(nodes := Handled(r.ctx, r.nodes, some - {s}));
      DeliverSome(st, r, some - {s});
      LeadsTo(st, mid);
      HandledOneMore(r.ctx, r.nodes, some, s);
      DoDeliver(mid, s);
      LeadsOn(st, mid, Deliver(s));
    }
  }
}
