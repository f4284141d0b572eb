/** What the client can conclude about stale acknowledgements from the answers it has read,
    exactly: a call is safe from those of a server if and only if that server can only answer
    phases after the latest of the op. */
module Unheard {
  import opened Messages
  import opened Protocol
  import opened Invariant
  import opened Preservation
  import opened Reachability
  import opened Theorems
  import opened Runs
  import opened Staleness
  import opened Dates
  import opened Spares

  lemma LatestPhase(c: Ctx, op: Op)
    requires PhaseInv(c) && op in c.started && c.phase != Some(op)
    ensures c.started[op] < AskedPhases(c) <= |c.phases| && c.phases[c.started[op]].op == op
  {
    hide OnlyDecision, HeardSince;
  }

  lemma OwedIsLeft(n: Node, i: nat, op: Op)
    requires i < |n.up| && n.up[i].msg == PlainAnswer(op) && IsPlain(op)
    ensures !NoneOf(n, op)
  {
    assert n.up[i] in n.up && OpOf(n.up[i].msg) == Some(op);
  }

  lemma UnfreshMeans(c: Ctx, s: NodeId, op: Op)
    requires !FreshFrom(c, s, op)
    ensures op in c.started && Heard(c, s) <= c.started[op]
  {
  }

  /** Exact freshness, by what the client has read. While no phase of `op` runs, and neither a
      vote nor a decision on cached blocks, in any run that kept the assumptions: no run with
      the same client history has a message of an earlier phase of `op` on a link of `s`, if
      and only if the client has read, since the latest of them began, an answer of `s` that
      can only be to a later phase. */
  lemma FreshIffNoneLeft(ids: set<NodeId>, fifo: bool, steps: seq<Step>, st: State, s: NodeId, op: Op)
    requires Reached(ids, fifo, steps, st) && s in st.nodes && IsPlain(op) && Waiting(st.ctx)
    requires st.ctx.phase != Some(op)
    ensures FreshFrom(st.ctx, s, op) <==>
              forall other | Occurs(ids, fifo, other) && other.ctx == st.ctx :: s in other.nodes
                && NoneOf(other.nodes[s], op)
  {
    hide *;
    ReachedMeans(ids, fifo, steps, st);
    GoodMeans(st.ctx, st.nodes);
    CtxPieces(st.ctx);
    if FreshFrom(st.ctx, s, op) {
      forall other | Occurs(ids, fifo, other) && other.ctx == st.ctx
        ensures s in other.nodes && NoneOf(other.nodes[s], op)
      {
        var others := SameHistory(ids, fifo, steps, st, other);
        ClearPhaseStartsEmpty(ids, fifo, others, other, s, op);
      }
    } else {
      UnfreshMeans(st.ctx, s, op);
      RunDated(ids, fifo, steps, st);
      PlainIsLater(st.ctx, op);
      var k := st.ctx.started[op];
      var other := SparesRun(ids, fifo, steps, st, s, k);
      SpareRunMeans(ids, fifo, st, other, s, k);
      LatestPhase(st.ctx, op);
      CutIsOwed(ids, fifo, st, other, s, k);
      OwedIsLeft(other.nodes[s], |Answers(st.ctx.phases, Heard(st.ctx, s), k)|, op);
    }
  }

  lemma PlainIsLater(c: Ctx, op: Op)
    requires CtxInv(c) && Dated(c) && IsPlain(op) && op in c.started
    ensures c.started[op] > 0
  {
    hide OnlyDecision, HeardSince, ClientInv, CallInv, Repeats;
  }

  lemma SameHistory(ids: set<NodeId>, fifo: bool, steps: seq<Step>, st: State, other: State) returns (others: seq<Step>)
    requires Reached(ids, fifo, steps, st) && Occurs(ids, fifo, other) && other.ctx == st.ctx
    ensures Reached(ids, fifo, others, other) && other.nodes.Keys == st.nodes.Keys
  {
    others :| Run(ids, fifo, others) == Some(other);
    hide Run, Good;
    ReachedMeans(ids, fifo, steps, st);
    ReachedMeans(ids, fifo, others, other);
  }

  /** The first phase of the call can read a stale answer of `s`. */
  ghost predicate CallCanReadStaleAck(st: State, call: Step, s: NodeId)
    requires IsCall(call) && !call.CallWrite?
  {
    Sane(st) && Enabled(st, call) && CanReadStaleAck(Do(st, call), s, FirstOp(call), Do(st, call).ctx.begun)
  }

  /** The same for the calls: given what the client has read, OpenFile, Abort or CloseFile may
      read a stale answer of `s` if and only if `s` was not heard since; Commit never does. */
  lemma StaleAckIffUnheard(ids: set<NodeId>, fifo: bool, steps: seq<Step>, st: State, call: Step, s: NodeId)
    requires Reached(ids, fifo, steps, st) && Enabled(st, call) && IsCall(call) && !call.CallWrite? && s in st.nodes
    ensures !FreshFrom(st.ctx, s, FirstOp(call)) <==>
              exists other :: Occurs(ids, fifo, other) && other.ctx == st.ctx && CallCanReadStaleAck(other, call, s)
  {
    hide *;
    CallBetween(st, call);
    var op := FirstOp(call);
    NoneLeftIffFresh(ids, fifo, steps, st, call, s);
    forall other | Occurs(ids, fifo, other) && other.ctx == st.ctx
      ensures s in other.nodes && (CallCanReadStaleAck(other, call, s) <==> !NoneOf(other.nodes[s], op))
    {
      var others := SameHistory(ids, fifo, steps, st, other);
      ReachedOccurs(ids, fifo, others, other);
      OccursSane(ids, fifo, other);
      EnabledAlike(st, other, call);
      StaleAckIffMessageLeft(ids, fifo, others, other, call, s);
      Unfolded(other, call, s);
    }
  }

  lemma NoneLeftIffFresh(ids: set<NodeId>, fifo: bool, steps: seq<Step>, st: State, call: Step, s: NodeId)
    requires Reached(ids, fifo, steps, st) && Enabled(st, call) && IsCall(call) && !call.CallWrite? && s in st.nodes
    ensures FreshFrom(st.ctx, s, FirstOp(call)) <==>
              forall other | Occurs(ids, fifo, other) && other.ctx == st.ctx ::
                s in other.nodes && NoneOf(other.nodes[s], FirstOp(call))
  {
    hide *;
    CallBetween(st, call);
    if call.CallCommit? {
      VotesAreFresh(ids, fifo, steps, st, call, s);
      forall other | Occurs(ids, fifo, other) && other.ctx == st.ctx
        ensures s in other.nodes && NoneOf(other.nodes[s], FirstOp(call))
      {
        var others := SameHistory(ids, fifo, steps, st, other);
        ClearPhaseStartsEmpty(ids, fifo, others, other, s, FirstOp(call));
      }
    } else {
      FreshIffNoneLeft(ids, fifo, steps, st, s, FirstOp(call));
    }
  }

  lemma VotesAreFresh(ids: set<NodeId>, fifo: bool, steps: seq<Step>, st: State, call: Step, s: NodeId)
    requires Reached(ids, fifo, steps, st) && Enabled(st, call) && call.CallCommit? && s in st.nodes
    ensures FreshFrom(st.ctx, s, VOTE_OP)
  {
    ReachedInv(ids, fifo, steps, st);
    OutsidePhase(st.ctx);
    VoteStartsClear(st.ctx);
  }

  lemma ReachedOccurs(ids: set<NodeId>, fifo: bool, steps: seq<Step>, st: State)
    requires Reached(ids, fifo, steps, st)
    ensures Run(ids, fifo, steps) == Some(st) && Occurs(ids, fifo, st)
  {
  }

  lemma CallBetween(st: State, call: Step)
    requires Enabled(st, call) && IsCall(call) && !call.CallWrite?
    ensures st.ctx.phase.None? && Waiting(st.ctx) && (IsPlain(FirstOp(call)) <==> !call.CallCommit?)
    ensures call.CallCommit? ==> FirstOp(call) == VOTE_OP
  {
  }

  lemma Unfolded(st: State, call: Step, s: NodeId)
    requires IsCall(call) && !call.CallWrite? && Sane(st) && Enabled(st, call)
    ensures CallCanReadStaleAck(st, call, s) <==>
              CanReadStaleAck(Do(st, call), s, FirstOp(call), Do(st, call).ctx.begun)
  {
    hide CanReadStaleAck, Do;
  }
}
