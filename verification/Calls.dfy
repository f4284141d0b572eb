/** The calls of the API as the transition system sees them: OpenFile, Abort, Commit and
    CloseFile, as `ClientClass` makes them, are runs of `Protocol` that begin with the call's
    step. With this, what is proved of runs holds of those calls. */
module Calls {
  import opened Messages
  import opened Timer
  import opened ClientSpec
  import opened Protocol
  import opened Invariant
  import opened Preservation
  import opened Reachability
  import opened Runs
  import opened Execution

  /** What the network does between two states turns `st` into `mid` in one `execute`. */
  ghost predicate PlaysPhase(call: Call, c: Client, recv: set<NodeId>, o: Oracle, st: State, mid: State)
    requires c.Valid() && Deadline(o.ticks, o.first, call.timeout) && Sane(st)
  {
    Sane(mid) && Plays(call, o.first, Start(c, recv), o.ticks, st, mid)
  }

  lemma StepMembers(st: State, step: Step)
    requires Sane(st) && Enabled(st, step) && Members(st)
    ensures Members(Do(st, step))
  {
    hide Do, Enabled, Sane;
  }

  lemma {:induction false} RunMembers(st: State, steps: seq<Step>)
    requires Sane(st) && RunFrom(st, steps).Some? && Members(st)
    ensures Members(RunFrom(st, steps).value)
  {
    if steps != [] {
      var n := |steps| - 1;
      RunMembers(st, steps[..n]);
      StepMembers(RunFrom(st, steps[..n]).value, steps[n]);
      hide Do, Enabled, Sane, Members;
    }
  }

  lemma LeadsMembers(st: State, r: State)
    requires Sane(st) && Leads(st, r) && Members(st)
    ensures Sane(r) && Members(r)
  {
    LeadsTo(st, r);
    var steps :| NoCalls(steps) && RunFrom(st, steps) == Some(r);
    hide RunFrom, Members, Sane;
    RunMembers(st, steps);
  }

  /** One `execute` leads to the context in which it returns, and what its caller makes of it. */
  lemma PhaseIsARun(call: Call, c: Client, recv: set<NodeId>, o: Oracle, st: State, mid: State) returns (e: Ctx)
    requires c.Valid() && Deadline(o.ticks, o.first, call.timeout) && Sane(st) && Members(st)
    requires InPhase(call, Start(c, recv), st.ctx) && PlaysPhase(call, c, recv, o, st, mid)
    ensures Leads(st, mid) && Sane(mid) && Members(mid)
    ensures var (q, ret) := OnePhase(call, c, recv, o);
            && e.client == q.client && InCall(st.ctx, q, e) && e.phase == Some(call.op) && call.op != INIT_OP
            && mid.ctx == Leave(e, ret, EndsByMember(call, o.first, Start(c, recv), o.ticks))
  {
    var p := Start(c, recv);
    var (q, ret) := OnePhase(call, c, recv, o);
    var checked := EndsByMember(call, o.first, p, o.ticks);
    assert Plays(call, o.first, p, o.ticks, st, mid) && p.client == c;
    hide *;
    ExecuteIsARun(call, o.first, p, o.ticks, st, mid);
    LeadsMembers(st, mid);
    PhaseComputes(call, c, recv, o);
    PhaseRuns(call, p, st.ctx);
    e := LeftFrom(st.ctx, q, ret, checked, mid.ctx);
  }

  lemma PhaseComputes(call: Call, c: Client, recv: set<NodeId>, o: Oracle)
    requires c.Valid() && Deadline(o.ticks, o.first, call.timeout)
    ensures Start(c, recv).client == c && OnePhase(call, c, recv, o) == Execute(call, o.first, Start(c, recv), o.ticks)
  {
    hide Execute;
  }

  lemma LeftFrom(c: Ctx, q: Progress, ret: Ret, checked: bool, d: Ctx) returns (e: Ctx)
    requires q.client.Valid() && c.phase.Some? && c.phase.value != INIT_OP && ReturnedAs(c, q, ret, checked, d)
    ensures InCall(c, q, e) && e.client == q.client && e.phase == c.phase && d == Leave(e, ret, checked)
  {
    hide Leave;
    e :| InCall(c, q, e) && e.asked && d == Leave(e, ret, checked);
  }

  // ----------------------------------------------------------------------------- contexts

  /** A phase of `op` has just begun for this client and this call. */
  predicate Begun(c: Ctx, op: Op, client: Client, fd: nat, call: Op) {
    c.phase == Some(op) && c.client == client && c.recv == {} && c.fd == fd && c.call == call
  }

  lemma BegunInPhase(me: NodeId, c: Ctx, op: Op, client: Client, fd: nat, call: Op, timeout: nat)
    requires Begun(c, op, client, fd, call) && op != INIT_OP && op != OPEN_OP
    ensures InPhase(Call(me, op, fd, [], timeout), Start(client, {}), c)
  {
  }

  lemma InCallKeeps(c: Ctx, q: Progress, e: Ctx)
    requires InCall(c, q, e)
    ensures e.fd == c.fd && e.call == c.call && e.client == q.client && e.recv == q.recv
    ensures e.second == c.second && e.survivors == c.survivors && e.phase == c.phase
  {
  }

  lemma VoteLeads(e: Ctx, ret: Ret, checked: bool)
    requires e.client.Valid() && e.phase == Some(VOTE_OP) && ret != Again
    ensures Begun(Leave(e, ret, checked), if ret == NormalReturn then COMMIT_OP else ABORT_OP, e.client, e.fd, e.call)
    ensures Leave(e, ret, checked).survivors == e.survivors
  {
    hide Clear, CurrentTxn;
  }

  lemma VoteAgain(e: Ctx, checked: bool)
    requires e.client.Valid() && e.phase == Some(VOTE_OP)
    ensures Leave(e, Again, checked) == e.(asked := false)
  {
  }

  lemma CommitFails(e: Ctx, checked: bool)
    requires e.client.Valid() && e.phase == Some(COMMIT_OP)
    ensures Begun(Leave(e, ErrorReturn, checked), ABORT_OP, e.client, e.fd, e.call)
  {
    hide Clear;
  }

  lemma CommitSucceeds(e: Ctx, checked: bool)
    requires e.client.Valid() && e.phase == Some(COMMIT_OP)
    ensures var d := Leave(e, NormalReturn, checked);
            && d.client == e.client.Reset()
            && if e.call == CLOSE_OP then SecondPass(d, e.survivors, e.fd)
               else d.phase.None? && d.returned == Returned(COMMIT_OP, true)
  {
    hide Clear;
  }

  /** The second CLOSE pass begins with the set of the first. */
  predicate SecondPass(d: Ctx, recv: set<NodeId>, fd: nat) {
    d.phase == Some(CLOSE_OP) && d.second && d.recv == recv && d.fd == fd
  }

  lemma AbortLeads(e: Ctx, ret: Ret, checked: bool)
    requires e.client.Valid() && e.phase == Some(ABORT_OP)
    ensures var d := Leave(e, ret, checked);
            && d.phase.None? && d.client == e.client.Reset()
            && d.returned == Returned(e.call, e.call == ABORT_OP && ret == NormalReturn)
  {
    LeaveAbortFields(e, ret);
    hide LeaveAbort;
  }

  lemma CloseLeads(e: Ctx, ret: Ret, checked: bool)
    requires e.client.Valid() && e.phase == Some(CLOSE_OP)
    ensures var d := Leave(e, ret, checked);
            if ret == Again && !e.second then Begun(d, VOTE_OP, e.client, e.fd, e.call) && d.survivors == e.recv
            else d.phase.None? && d.client == e.client && d.returned == Returned(CLOSE_OP, ret != ErrorReturn)
  {
    hide Clear;
  }

  // ------------------------------------------------------------------------------- Abort

  lemma AbortPhase(me: NodeId, fd: nat, c: Client, o: Oracle, call: Op, st: State, last: State)
    requires c.Valid() && Deadline(o.ticks, o.first, LONG_TIMEOUT) && Sane(st) && Members(st)
    requires Begun(st.ctx, ABORT_OP, c, fd, call)
    requires PlaysPhase(Call(me, ABORT_OP, fd, [], LONG_TIMEOUT), c, {}, o, st, last)
    ensures Leads(st, last) && last.ctx.phase.None? && last.ctx.client == AbortCall(me, fd, c, o).0
    ensures last.ctx.returned == Returned(call, call == ABORT_OP && AbortCall(me, fd, c, o).1)
  {
    var ex := Call(me, ABORT_OP, fd, [], LONG_TIMEOUT);
    var (q, ret) := OnePhase(ex, c, {}, o);
    PlainPhaseKeepsCache(ex, o.first, Start(c, {}), o.ticks);
    assert AbortCall(me, fd, c, o) == (q.client.Reset(), ret != ErrorReturn) && ret != Again by { hide Execute; }
    hide *;
    BegunInPhase(me, st.ctx, ABORT_OP, c, fd, call, LONG_TIMEOUT);
    var e := PhaseIsARun(ex, c, {}, o, st, last);
    InCallKeeps(st.ctx, q, e);
    AbortLeads(e, ret, EndsByMember(ex, o.first, Start(c, {}), o.ticks));
    BegunMeans(st.ctx, ABORT_OP, c, fd, call);
  }

  lemma BegunMeans(c: Ctx, op: Op, client: Client, fd: nat, call: Op)
    requires Begun(c, op, client, fd, call)
    ensures c.phase == Some(op) && c.client == client && c.recv == {} && c.fd == fd && c.call == call
  {
  }

  // ------------------------------------------------------------------------------ Commit

  ghost predicate PlaysVotes(call: Call, c: Client, recv: set<NodeId>, rounds: seq<Oracle>, st: State, last: State)
    requires c.Valid() && (forall o | o in rounds :: Deadline(o.ticks, o.first, call.timeout)) && Sane(st)
    decreases |rounds|
  {
    if rounds == [] then last == st
    else
      exists mid :: Sane(mid) && PlaysPhase(call, c, recv, rounds[0], st, mid) &&
        var (q, ret) := OnePhase(call, c, recv, rounds[0]);
        if ret == Again then PlaysVotes(call, q.client, q.recv, rounds[1..], mid, last) else last == mid
  }

  /** After the vote: the context in which it returned, or still runs. */
  ghost predicate Voted(c: Ctx, e: Ctx, d: Client, recv: set<NodeId>, ret: Option<Ret>, last: Ctx) {
    && e.client == d && e.recv == recv && d.Valid() && e.phase == Some(VOTE_OP)
    && e.fd == c.fd && e.call == c.call && e.survivors == c.survivors
    && if ret.None? then last == e else exists checked :: last == Leave(e, ret.value, checked)
  }

  lemma {:induction false} VotesAreARun(call: Call, c: Client, recv: set<NodeId>, rounds: seq<Oracle>, st: State,
                                        last: State)
      returns (e: Ctx)
    requires c.Valid() && (forall o | o in rounds :: Deadline(o.ticks, o.first, call.timeout)) && Sane(st)
    requires Members(st)
    requires call.op == VOTE_OP && InPhase(call, Start(c, recv), st.ctx) && PlaysVotes(call, c, recv, rounds, st, last)
    ensures Leads(st, last) && Sane(last) && Members(last)
    ensures var (d, r, ret) := VoteLoop(call, c, recv, rounds); Voted(st.ctx, e, d, r, ret, last.ctx)
    decreases |rounds|
  {
    if rounds == [] {
      LeadsSelf(st);
      e := st.ctx;
      assert Voted(st.ctx, e, c, recv, None, last.ctx) by { hide Leave; }
    } else {
      var o := rounds[0];
      var mid :| Sane(mid) && PlaysPhase(call, c, recv, o, st, mid) &&
        var (q, ret) := OnePhase(call, c, recv, o);
        if ret == Again then PlaysVotes(call, q.client, q.recv, rounds[1..], mid, last) else last == mid;
      var (q, ret) := OnePhase(call, c, recv, o);
      VoteRound(call, c, recv, rounds);
      hide *;
      e := PhaseIsARun(call, c, recv, o, st, mid);
      InCallKeeps(st.ctx, q, e);
      if ret == Again {
        VoteAgain(e, EndsByMember(call, o.first, Start(c, recv), o.ticks));
        StillVoting(call, c, recv, st.ctx, q, e, mid.ctx);
        e := VotesAreARun(call, q.client, q.recv, rounds[1..], mid, last);
        LeadsTransitive(st, mid, last);
        var (d, r, x) := VoteLoop(call, q.client, q.recv, rounds[1..]);
        VotedLater(st.ctx, mid.ctx, e, d, r, x, last.ctx);
      } else {
        VotedNow(st.ctx, e, q, ret, EndsByMember(call, o.first, Start(c, recv), o.ticks), last.ctx);
      }
    }
  }

  lemma VoteRound(call: Call, c: Client, recv: set<NodeId>, rounds: seq<Oracle>)
    requires c.Valid() && (forall o | o in rounds :: Deadline(o.ticks, o.first, call.timeout)) && rounds != []
    ensures var (q, ret) := OnePhase(call, c, recv, rounds[0]);
            VoteLoop(call, c, recv, rounds) ==
              if ret == Again then VoteLoop(call, q.client, q.recv, rounds[1..]) else (q.client, q.recv, Some(ret))
  {
    hide Execute;
  }

  lemma StillVoting(call: Call, c: Client, recv: set<NodeId>, d: Ctx, q: Progress, e: Ctx, f: Ctx)
    requires InPhase(call, Start(c, recv), d) && InCall(d, q, e) && f == e.(asked := false)
    ensures InPhase(call, Start(q.client, q.recv), f) && f.fd == d.fd && f.call == d.call && f.survivors == d.survivors
  {
    hide Request;
  }

  lemma VotedLater(c: Ctx, mid: Ctx, e: Ctx, d: Client, recv: set<NodeId>, ret: Option<Ret>, last: Ctx)
    requires Voted(mid, e, d, recv, ret, last) && mid.fd == c.fd && mid.call == c.call && mid.survivors == c.survivors
    ensures Voted(c, e, d, recv, ret, last)
  {
    hide Leave;
  }

  lemma VotedNow(c: Ctx, e: Ctx, q: Progress, ret: Ret, checked: bool, last: Ctx)
    requires InCall(c, q, e) && e.phase == Some(VOTE_OP) && q.client.Valid() && last == Leave(e, ret, checked)
    ensures Voted(c, e, q.client, q.recv, Some(ret), last)
  {
    hide Leave;
  }

  /** The phases of a Commit, from the VOTE on. */
  ghost predicate PlaysCommit(me: NodeId, fd: nat, c: Client, votes: seq<Oracle>, commit: Oracle, abort: Oracle,
                              st: State, last: State)
    requires c.Valid() && CommitOracles(votes, commit, abort) && Sane(st)
  {
    exists mid :: Sane(mid) && PlaysVotes(Call(me, VOTE_OP, fd, [], LONG_TIMEOUT), c, {}, votes, st, mid)
                  && PlaysDecision(me, fd, VoteLoop(Call(me, VOTE_OP, fd, [], LONG_TIMEOUT), c, {}, votes), commit,
                                   abort, mid, last)
  }

  ghost predicate PlaysDecision(me: NodeId, fd: nat, vote: (Client, set<NodeId>, Option<Ret>), commit: Oracle,
                                abort: Oracle,
                                st: State, last: State)
    requires vote.0.Valid() && CommitOracles([], commit, abort) && Sane(st)
  {
    var d := vote.0;
    if vote.2.None? then last == st
    else if vote.2 != Some(NormalReturn) then
      PlaysPhase(Call(me, ABORT_OP, fd, [], LONG_TIMEOUT), d, {}, abort, st, last)
    else
      exists mid :: Sane(mid) && PlaysPhase(Call(me, COMMIT_OP, fd, [], LONG_TIMEOUT), d, {}, commit, st, mid) &&
        var (q, ret) := OnePhase(Call(me, COMMIT_OP, fd, [], LONG_TIMEOUT), d, {}, commit);
        if ret == ErrorReturn then PlaysPhase(Call(me, ABORT_OP, fd, [], LONG_TIMEOUT), q.client, {}, abort, mid, last)
        else last == mid
  }

  /** How a Commit, called by itself or by CloseFile, leaves the client and the history. */
  ghost predicate CommitLeft(call: Op, fd: nat, survivors: set<NodeId>, r: (Client, Option<bool>), last: Ctx) {
    && last.client == r.0
    && if r.1.None? then last.phase == Some(VOTE_OP)
       else if !r.1.value then last.phase.None? && last.returned == Returned(call, false)
       else if call == CLOSE_OP then SecondPass(last, survivors, fd)
       else last.phase.None? && last.returned == Returned(COMMIT_OP, true)
  }

  lemma CommitIsARun(me: NodeId, fd: nat, c: Client, votes: seq<Oracle>, commit: Oracle, abort: Oracle, call: Op,
                     st: State, last: State)
    requires c.Valid() && CommitOracles(votes, commit, abort) && Sane(st) && Members(st) && call != ABORT_OP
    requires Begun(st.ctx, VOTE_OP, c, fd, call) && PlaysCommit(me, fd, c, votes, commit, abort, st, last)
    ensures Leads(st, last)
    ensures CommitLeft(call, fd, st.ctx.survivors, CommitCall(me, fd, c, votes, commit, abort), last.ctx)
  {
    var ex := Call(me, VOTE_OP, fd, [], LONG_TIMEOUT);
    var mid :| Sane(mid) && PlaysVotes(ex, c, {}, votes, st, mid)
               && PlaysDecision(me, fd, VoteLoop(ex, c, {}, votes), commit, abort, mid, last);
    assert CommitOracles([], commit, abort) && forall o | o in votes :: Deadline(o.ticks, o.first, ex.timeout);
    CommitCallDecides(me, fd, c, votes, commit, abort);
    hide *;
    BegunInPhase(me, st.ctx, VOTE_OP, c, fd, call, LONG_TIMEOUT);
    BegunMeans(st.ctx, VOTE_OP, c, fd, call);
    var e := VotesAreARun(ex, c, {}, votes, st, mid);
    var vote := VoteLoop(ex, c, {}, votes);
    VotedMeans(st.ctx, e, vote.0, vote.1, vote.2, mid.ctx, call, fd);
    DecisionIsARun(me, fd, vote, commit, abort, call, st.ctx.survivors, mid, last);
    LeadsTransitive(st, mid, last);
  }

  /** The rest of Commit after its vote loop. */
  ghost function Decide(me: NodeId, fd: nat, vote: (Client, set<NodeId>, Option<Ret>), commit: Oracle, abort: Oracle)
        : (Client, Option<bool>)
    requires vote.0.Valid() && CommitOracles([], commit, abort)
  {
    if vote.2.None? then (vote.0, None)
    else if vote.2 != Some(NormalReturn) then (AbortCall(me, fd, vote.0, abort).0, Some(false))
    else
      var (q, ret) := OnePhase(Call(me, COMMIT_OP, fd, [], LONG_TIMEOUT), vote.0, {}, commit);
      if ret == ErrorReturn then (AbortCall(me, fd, q.client, abort).0, Some(false)) else (q.client.Reset(), Some(true))
  }

  lemma CommitCallDecides(me: NodeId, fd: nat, c: Client, votes: seq<Oracle>, commit: Oracle, abort: Oracle)
    requires c.Valid() && CommitOracles(votes, commit, abort)
    ensures var vote := VoteLoop(Call(me, VOTE_OP, fd, [], LONG_TIMEOUT), c, {}, votes);
            && CommitOracles([], commit, abort) && vote.2 != Some(Again)
            && CommitCall(me, fd, c, votes, commit, abort) == Decide(me, fd, vote, commit, abort)
  {
    hide OnePhase, VoteLoop, AbortCall;
  }

  /** The vote is over, or still runs. */
  ghost predicate AfterVote(c: Ctx, d: Client, ret: Option<Ret>, call: Op, fd: nat, survivors: set<NodeId>) {
    if ret.None? then c.phase == Some(VOTE_OP) && c.client == d
    else Begun(c, if ret == Some(NormalReturn) then COMMIT_OP else ABORT_OP, d, fd, call) && c.survivors == survivors
  }

  lemma VotedMeans(c: Ctx, e: Ctx, d: Client, recv: set<NodeId>, ret: Option<Ret>, last: Ctx, call: Op, fd: nat)
    requires Voted(c, e, d, recv, ret, last) && ret != Some(Again) && c.fd == fd && c.call == call
    ensures AfterVote(last, d, ret, call, fd, c.survivors)
  {
    if ret.Some? {
      var checked :| last == Leave(e, ret.value, checked);
      hide Leave;
      VoteLeads(e, ret.value, checked);
    }
  }

  lemma DecisionIsARun(me: NodeId, fd: nat, vote: (Client, set<NodeId>, Option<Ret>), commit: Oracle, abort: Oracle,
                       call: Op,
                       survivors: set<NodeId>, st: State, last: State)
    requires vote.0.Valid() && CommitOracles([], commit, abort) && Sane(st) && Members(st) && call != ABORT_OP
    requires AfterVote(st.ctx, vote.0, vote.2, call, fd, survivors)
    requires PlaysDecision(me, fd, vote, commit, abort, st, last)
    ensures Leads(st, last) && CommitLeft(call, fd, survivors, Decide(me, fd, vote, commit, abort), last.ctx)
  {
    var d := vote.0;
    assert Deadline(commit.ticks, commit.first, LONG_TIMEOUT) && Deadline(abort.ticks, abort.first, LONG_TIMEOUT);
    if vote.2.None? {
      LeadsSelf(st);
    } else if vote.2 != Some(NormalReturn) {
      hide PlaysPhase, Leads, AbortCall, Begun, Members, Sane;
      AbortPhase(me, fd, d, abort, call, st, last);
    } else {
      hide PlaysPhase, OnePhase, Leads, Begun, Members, Sane, AbortCall, SecondPass;
      var ex := Call(me, COMMIT_OP, fd, [], LONG_TIMEOUT);
      var (q, ret) := OnePhase(ex, d, {}, commit);
      var mid :| Sane(mid) && PlaysPhase(ex, d, {}, commit, st, mid) &&
        if ret == ErrorReturn then PlaysPhase(Call(me, ABORT_OP, fd, [], LONG_TIMEOUT), q.client, {}, abort, mid, last)
        else last == mid;
      CommitPhase(me, fd, d, commit, call, survivors, st, mid);
      if ret == ErrorReturn {
        AbortPhase(me, fd, q.client, abort, call, mid, last);
        LeadsTransitive(st, mid, last);
      }
    }
  }

  lemma CommitPhase(me: NodeId, fd: nat, d: Client, commit: Oracle, call: Op, survivors: set<NodeId>, st: State,
                    mid: State)
    requires d.Valid() && Deadline(commit.ticks, commit.first, LONG_TIMEOUT) && Sane(st) && Members(st)
    requires Begun(st.ctx, COMMIT_OP, d, fd, call) && st.ctx.survivors == survivors
    requires PlaysPhase(Call(me, COMMIT_OP, fd, [], LONG_TIMEOUT), d, {}, commit, st, mid)
    ensures Leads(st, mid) && Sane(mid) && Members(mid)
    ensures var (q, ret) := OnePhase(Call(me, COMMIT_OP, fd, [], LONG_TIMEOUT), d, {}, commit);
            if ret == ErrorReturn then Begun(mid.ctx, ABORT_OP, q.client, fd, call)
            else
              && mid.ctx.client == q.client.Reset()
              && if call == CLOSE_OP then SecondPass(mid.ctx, survivors, fd)
                 else mid.ctx.phase.None? && mid.ctx.returned == Returned(COMMIT_OP, true)
  {
    var ex := Call(me, COMMIT_OP, fd, [], LONG_TIMEOUT);
    var (q, ret) := OnePhase(ex, d, {}, commit);
    PlainPhaseKeepsCache(ex, commit.first, Start(d, {}), commit.ticks);
    assert ret != Again by { hide Execute; }
    hide *;
    BegunInPhase(me, st.ctx, COMMIT_OP, d, fd, call, LONG_TIMEOUT);
    BegunMeans(st.ctx, COMMIT_OP, d, fd, call);
    var e := PhaseIsARun(ex, d, {}, commit, st, mid);
    InCallKeeps(st.ctx, q, e);
    var checked := EndsByMember(ex, commit.first, Start(d, {}), commit.ticks);
    if ret == ErrorReturn {
      CommitFails(e, checked);
    } else {
      CommitSucceeds(e, checked);
    }
  }

  // --------------------------------------------------------------------------- CloseFile

  /** The passes of a CloseFile and the Commit between them. */
  ghost predicate PlaysClose(me: NodeId, fd: nat, c: Client, close: Oracle, votes: seq<Oracle>, commit: Oracle,
                             abort: Oracle,
                             again: Oracle, st: State, last: State)
    requires c.Valid() && CommitOracles(votes, commit, abort) && Sane(st)
    requires Deadline(close.ticks, close.first, SHORT_TIMEOUT) && Deadline(again.ticks, again.first, SHORT_TIMEOUT)
  {
    exists mid :: Sane(mid) && PlaysPhase(Call(me, CLOSE_OP, fd, [], SHORT_TIMEOUT), c, {}, close, st, mid) &&
      var (p, first) := OnePhase(Call(me, CLOSE_OP, fd, [], SHORT_TIMEOUT), c, {}, close);
      if first != Again then last == mid
      else PlaysSecond(me, fd, p.client, p.recv, votes, commit, abort, again, mid, last)
  }

  ghost predicate PlaysSecond(me: NodeId, fd: nat, c: Client, recv: set<NodeId>, votes: seq<Oracle>, commit: Oracle,
                              abort: Oracle,
                              again: Oracle, st: State, last: State)
    requires c.Valid() && CommitOracles(votes, commit, abort) && Sane(st)
    requires Deadline(again.ticks, again.first, SHORT_TIMEOUT)
  {
    exists mid :: Sane(mid) && PlaysCommit(me, fd, c, votes, commit, abort, st, mid) &&
      var (d, committed) := CommitCall(me, fd, c, votes, commit, abort);
      if committed != Some(true) then last == mid
      else PlaysPhase(Call(me, CLOSE_OP, fd, [], SHORT_TIMEOUT), d, recv, again, mid, last)
  }

  /** How a CloseFile leaves the client and the history. */
  ghost predicate CloseLeft(r: (Client, Option<bool>), last: Ctx) {
    && last.client == r.0
    && if r.1.None? then last.phase == Some(VOTE_OP)
       else last.phase.None? && last.returned == Returned(CLOSE_OP, r.1.value)
  }

  lemma SecondInPhase(me: NodeId, c: Ctx, client: Client, recv: set<NodeId>, fd: nat)
    requires SecondPass(c, recv, fd) && c.client == client
    ensures InPhase(Call(me, CLOSE_OP, fd, [], SHORT_TIMEOUT), Start(client, recv), c) && c.second
  {
  }

  lemma SecondPhase(me: NodeId, fd: nat, d: Client, recv: set<NodeId>, again: Oracle, st: State, last: State)
    requires d.Valid() && Deadline(again.ticks, again.first, SHORT_TIMEOUT) && Sane(st) && Members(st)
    requires SecondPass(st.ctx, recv, fd) && st.ctx.client == d
    requires PlaysPhase(Call(me, CLOSE_OP, fd, [], SHORT_TIMEOUT), d, recv, again, st, last)
    ensures Leads(st, last)
    ensures var (q, ret) := OnePhase(Call(me, CLOSE_OP, fd, [], SHORT_TIMEOUT), d, recv, again);
            last.ctx.phase.None? && last.ctx.client == q.client
              && last.ctx.returned == Returned(CLOSE_OP, ret != ErrorReturn)
  {
    hide *;
    var ex := Call(me, CLOSE_OP, fd, [], SHORT_TIMEOUT);
    var (q, ret) := OnePhase(ex, d, recv, again);
    SecondInPhase(me, st.ctx, d, recv, fd);
    var e := PhaseIsARun(ex, d, recv, again, st, last);
    InCallKeeps(st.ctx, q, e);
    CloseLeads(e, ret, EndsByMember(ex, again.first, Start(d, recv), again.ticks));
  }

  lemma SecondIsARun(me: NodeId, fd: nat, c: Client, recv: set<NodeId>, votes: seq<Oracle>, commit: Oracle,
                     abort: Oracle,
                     again: Oracle, st: State, last: State)
    requires c.Valid() && CommitOracles(votes, commit, abort) && Sane(st) && Members(st)
    requires Deadline(again.ticks, again.first, SHORT_TIMEOUT) && Begun(st.ctx, VOTE_OP, c, fd, CLOSE_OP)
    requires st.ctx.survivors == recv
    requires PlaysSecond(me, fd, c, recv, votes, commit, abort, again, st, last)
    ensures Leads(st, last)
    ensures var (d, committed) := CommitCall(me, fd, c, votes, commit, abort);
            if committed != Some(true) then CloseLeft((d, committed), last.ctx)
            else
              var (q, ret) := OnePhase(Call(me, CLOSE_OP, fd, [], SHORT_TIMEOUT), d, recv, again);
              CloseLeft((q.client, Some(ret != ErrorReturn)), last.ctx)
  {
    hide PlaysCommit, CommitCall, PlaysPhase, Sane, OnePhase, Begun, CommitOracles, SecondPass, Deadline, Leads,
      Members;
    var (d, committed) := CommitCall(me, fd, c, votes, commit, abort);
    var mid :| Sane(mid) && PlaysCommit(me, fd, c, votes, commit, abort, st, mid) &&
      if committed != Some(true) then last == mid
      else PlaysPhase(Call(me, CLOSE_OP, fd, [], SHORT_TIMEOUT), d, recv, again, mid, last);
    CommitIsARun(me, fd, c, votes, commit, abort, CLOSE_OP, st, mid);
    LeadsMembers(st, mid);
    if committed == Some(true) {
      SecondPhase(me, fd, d, recv, again, mid, last);
      LeadsTransitive(st, mid, last);
    }
  }

  lemma FirstPhase(me: NodeId, fd: nat, c: Client, close: Oracle, st: State, mid: State)
    requires c.Valid() && Deadline(close.ticks, close.first, SHORT_TIMEOUT) && Sane(st) && Members(st)
    requires Begun(st.ctx, CLOSE_OP, c, fd, CLOSE_OP) && !st.ctx.second
    requires PlaysPhase(Call(me, CLOSE_OP, fd, [], SHORT_TIMEOUT), c, {}, close, st, mid)
    ensures Leads(st, mid) && Sane(mid) && Members(mid)
    ensures var (p, first) := OnePhase(Call(me, CLOSE_OP, fd, [], SHORT_TIMEOUT), c, {}, close);
            if first == Again then Begun(mid.ctx, VOTE_OP, p.client, fd, CLOSE_OP) && mid.ctx.survivors == p.recv
            else CloseLeft((p.client, Some(first == NormalReturn)), mid.ctx)
  {
    var ex := Call(me, CLOSE_OP, fd, [], SHORT_TIMEOUT);
    var (p, first) := OnePhase(ex, c, {}, close);
    hide *;
    BegunInPhase(me, st.ctx, CLOSE_OP, c, fd, CLOSE_OP, SHORT_TIMEOUT);
    BegunMeans(st.ctx, CLOSE_OP, c, fd, CLOSE_OP);
    var e := PhaseIsARun(ex, c, {}, close, st, mid);
    InCallKeeps(st.ctx, p, e);
    CloseLeads(e, first, EndsByMember(ex, close.first, Start(c, {}), close.ticks));
    if first != Again {
      ClosedNow(p.client, first, mid.ctx);
    }
  }

  lemma ClosedNow(d: Client, ret: Ret, last: Ctx)
    requires last.client == d && last.phase.None? && last.returned == Returned(CLOSE_OP, ret != ErrorReturn)
    requires ret != Again
    ensures CloseLeft((d, Some(ret == NormalReturn)), last)
  {
  }

  lemma CloseIsARun(me: NodeId, fd: nat, c: Client, close: Oracle, votes: seq<Oracle>, commit: Oracle, abort: Oracle,
                    again: Oracle, st: State, last: State)
    requires c.Valid() && CommitOracles(votes, commit, abort) && Sane(st) && Members(st)
    requires Deadline(close.ticks, close.first, SHORT_TIMEOUT) && Deadline(again.ticks, again.first, SHORT_TIMEOUT)
    requires Begun(st.ctx, CLOSE_OP, c, fd, CLOSE_OP) && !st.ctx.second
    requires PlaysClose(me, fd, c, close, votes, commit, abort, again, st, last)
    ensures Leads(st, last) && CloseLeft(CloseCall(me, fd, c, close, votes, commit, abort, again), last.ctx)
  {
    hide CommitCall, PlaysSecond, PlaysPhase, Sane, OnePhase, Begun, CommitOracles, Deadline, CloseLeft, Leads, Members;
    var ex := Call(me, CLOSE_OP, fd, [], SHORT_TIMEOUT);
    var (p, first) := OnePhase(ex, c, {}, close);
    var mid :| Sane(mid) && PlaysPhase(ex, c, {}, close, st, mid) &&
      if first != Again then last == mid
        else PlaysSecond(me, fd, p.client, p.recv, votes, commit, abort, again, mid, last);
    FirstPhase(me, fd, c, close, st, mid);
    if first == Again {
      SecondIsARun(me, fd, p.client, p.recv, votes, commit, abort, again, mid, last);
      LeadsTransitive(st, mid, last);
    }
  }

  // -------------------------------------------------------------- from the call's own step on

  lemma CallBegun(c: Ctx, call: Step)
    requires c.client.Valid() && (call.CallCommit? || call.CallAbort? || call.CallClose?)
    ensures var d := CalledCtx(c, call);
            && (call.CallCommit? ==> Begun(d, VOTE_OP, c.client, c.fd, COMMIT_OP))
            && (call.CallAbort? ==> Begun(d, ABORT_OP, c.client, c.fd, ABORT_OP))
            && (call.CallClose? ==> Begun(d, CLOSE_OP, c.client, c.fd, CLOSE_OP) && !d.second)
  {
    BeginFields(Called(c, COMMIT_OP), VOTE_OP);
    BeginFields(Called(c, ABORT_OP), ABORT_OP);
    BeginFields(Called(c, CLOSE_OP), CLOSE_OP);
    hide StartPhase, BeginDecision, CloseSafe, CurrentTxn, Onward;
  }

  lemma CallStarts(st: State, call: Step)
    requires Sane(st) && Members(st) && Enabled(st, call) && (call.CallCommit? || call.CallAbort? || call.CallClose?)
    ensures st.ctx.client.Valid() && Sane(Do(st, call)) && Members(Do(st, call))
    ensures var c, d := st.ctx, Do(st, call).ctx;
            && (call.CallCommit? ==> Begun(d, VOTE_OP, c.client, c.fd, COMMIT_OP))
            && (call.CallAbort? ==> Begun(d, ABORT_OP, c.client, c.fd, ABORT_OP))
            && (call.CallClose? ==> Begun(d, CLOSE_OP, c.client, c.fd, CLOSE_OP) && !d.second)
  {
    CallEffect(st, call);
    StepMembers(st, call);
    CallBegun(st.ctx, call);
    hide Do, Enabled, CalledCtx, Begun, Members;
  }

  lemma OpenStarts(st: State, name: Name)
    requires Sane(st) && Members(st) && Enabled(st, CallOpen(name))
    ensures st.ctx.client.Valid() && Sane(Do(st, CallOpen(name))) && Members(Do(st, CallOpen(name)))
    ensures var d := Do(st, CallOpen(name)).ctx;
            Begun(d, OPEN_OP, st.ctx.client, st.ctx.nextFd, OPEN_OP) && d.fileName == name
  {
    CallEffect(st, CallOpen(name));
    StepMembers(st, CallOpen(name));
    OpenBegun(st.ctx, name);
    hide Do, Enabled, CallOpenCtx, Begun, Members;
  }

  lemma OpenBegun(c: Ctx, name: Name)
    ensures Begun(CallOpenCtx(c, name), OPEN_OP, c.client, c.nextFd, OPEN_OP) && CallOpenCtx(c, name).fileName == name
  {
    BeginFields(Naming(c), OPEN_OP);
    BeginFields(Naming(c).(prevName := c.fileName, fileName := name), OPEN_OP);
    hide StartPhase, BeginDecision, Onward;
  }

  lemma OpenInPhase(me: NodeId, c: Ctx, client: Client, fd: nat, name: Name)
    requires Begun(c, OPEN_OP, client, fd, OPEN_OP) && c.fileName == name
    ensures InPhase(Call(me, OPEN_OP, fd, name, LONG_TIMEOUT), Start(client, {}), c)
  {
  }

  lemma OpenLeads(e: Ctx, ret: Ret, checked: bool)
    requires e.client.Valid() && e.phase == Some(OPEN_OP)
    ensures var d := Leave(e, ret, checked);
            d.phase.None? && d.client == e.client && d.returned == Returned(OPEN_OP, ret == NormalReturn)
  {
  }

  /** `OpenFile`, with what its `execute` meets, is a run of the transition system: it returns
      and leaves the client as `OpenCall` says. */
  lemma OpenCallIsARun(me: NodeId, name: Name, o: Oracle, st: State, last: State)
    requires Sane(st) && Members(st) && Enabled(st, CallOpen(name)) && Deadline(o.ticks, o.first, LONG_TIMEOUT)
    requires st.ctx.client.Valid()
    requires PlaysPhase(Call(me, OPEN_OP, st.ctx.nextFd, name, LONG_TIMEOUT), st.ctx.client, {}, o,
                        Do(st, CallOpen(name)), last)
    ensures Leads(Do(st, CallOpen(name)), last)
    ensures var (d, ok) := OpenCall(me, st.ctx.nextFd, name, st.ctx.client, o);
            last.ctx.phase.None? && last.ctx.client == d && last.ctx.returned == Returned(OPEN_OP, ok)
  {
    var c, fd, begun := st.ctx.client, st.ctx.nextFd, Do(st, CallOpen(name));
    var ex := Call(me, OPEN_OP, fd, name, LONG_TIMEOUT);
    var (q, ret) := OnePhase(ex, c, {}, o);
    PlainPhaseKeepsCache(ex, o.first, Start(c, {}), o.ticks);
    assert OpenCall(me, fd, name, c, o) == (q.client, ret != ErrorReturn) && ret != Again by { hide Execute; }
    hide *;
    OpenStarts(st, name);
    OpenInPhase(me, begun.ctx, c, fd, name);
    var e := PhaseIsARun(ex, c, {}, o, begun, last);
    InCallKeeps(begun.ctx, q, e);
    OpenLeads(e, ret, EndsByMember(ex, o.first, Start(c, {}), o.ticks));
  }

  /** `Abort`, with what its `execute` meets, is a run of the transition system: it returns
      and leaves the client as `AbortCall` says. */
  lemma AbortCallIsARun(me: NodeId, o: Oracle, st: State, last: State)
    requires Sane(st) && Members(st) && Enabled(st, CallAbort) && Deadline(o.ticks, o.first, LONG_TIMEOUT)
    requires st.ctx.client.Valid()
    requires PlaysPhase(Call(me, ABORT_OP, st.ctx.fd, [], LONG_TIMEOUT), st.ctx.client, {}, o, Do(st, CallAbort), last)
    ensures Leads(Do(st, CallAbort), last)
    ensures var (d, ok) := AbortCall(me, st.ctx.fd, st.ctx.client, o);
            last.ctx.phase.None? && last.ctx.client == d && last.ctx.returned == Returned(ABORT_OP, ok)
  {
    hide *;
    CallStarts(st, CallAbort);
    AbortPhase(me, st.ctx.fd, st.ctx.client, o, ABORT_OP, Do(st, CallAbort), last);
  }

  /** ... and so is `Commit`, whatever its vote rounds, its COMMIT and its ABORT meet. */
  lemma CommitCallIsARun(me: NodeId, votes: seq<Oracle>, commit: Oracle, abort: Oracle, st: State, last: State)
    requires Sane(st) && Members(st) && Enabled(st, CallCommit) && CommitOracles(votes, commit, abort)
    requires st.ctx.client.Valid()
    requires PlaysCommit(me, st.ctx.fd, st.ctx.client, votes, commit, abort, Do(st, CallCommit), last)
    ensures Leads(Do(st, CallCommit), last)
    ensures var (d, ok) := CommitCall(me, st.ctx.fd, st.ctx.client, votes, commit, abort);
            && last.ctx.client == d
            && if ok.None? then last.ctx.phase == Some(VOTE_OP)
               else last.ctx.phase.None? && last.ctx.returned == Returned(COMMIT_OP, ok.value)
  {
    hide *;
    CallStarts(st, CallCommit);
    CommitIsARun(me, st.ctx.fd, st.ctx.client, votes, commit, abort, COMMIT_OP, Do(st, CallCommit), last);
    CommitLeftAlone(st.ctx.fd, Do(st, CallCommit).ctx.survivors,
                    CommitCall(me, st.ctx.fd, st.ctx.client, votes, commit, abort), last.ctx);
  }

  lemma CommitLeftAlone(fd: nat, survivors: set<NodeId>, r: (Client, Option<bool>), last: Ctx)
    requires CommitLeft(COMMIT_OP, fd, survivors, r, last)
    ensures last.client == r.0
    ensures if r.1.None? then last.phase == Some(VOTE_OP)
            else last.phase.None? && last.returned == Returned(COMMIT_OP, r.1.value)
  {
  }

  /** ... and `CloseFile`, with the Commit inside it and its second pass. */
  lemma CloseCallIsARun(me: NodeId, close: Oracle, votes: seq<Oracle>, commit: Oracle, abort: Oracle, again: Oracle,
                        st: State, last: State)
    requires Sane(st) && Members(st) && Enabled(st, CallClose) && CommitOracles(votes, commit, abort)
    requires st.ctx.client.Valid()
    requires Deadline(close.ticks, close.first, SHORT_TIMEOUT) && Deadline(again.ticks, again.first, SHORT_TIMEOUT)
    requires PlaysClose(me, st.ctx.fd, st.ctx.client, close, votes, commit, abort, again, Do(st, CallClose), last)
    ensures Leads(Do(st, CallClose), last)
    ensures var (d, ok) := CloseCall(me, st.ctx.fd, st.ctx.client, close, votes, commit, abort, again);
            && last.ctx.client == d
            && if ok.None? then last.ctx.phase == Some(VOTE_OP)
               else last.ctx.phase.None? && last.ctx.returned == Returned(CLOSE_OP, ok.value)
  {
    hide *;
    CallStarts(st, CallClose);
    CloseIsARun(me, st.ctx.fd, st.ctx.client, close, votes, commit, abort, again, Do(st, CallClose), last);
    CloseLeftMeans(CloseCall(me, st.ctx.fd, st.ctx.client, close, votes, commit, abort, again), last.ctx);
  }

  lemma CloseLeftMeans(r: (Client, Option<bool>), last: Ctx)
    requires CloseLeft(r, last)
    ensures last.client == r.0
    ensures if r.1.None? then last.phase == Some(VOTE_OP)
            else last.phase.None? && last.returned == Returned(CLOSE_OP, r.1.value)
  {
  }
}
