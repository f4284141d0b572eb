/** What one call of `execute` sends, and how it ends, read off the clock and the packets:
    the datagrams that leave the client, the deadlines and the retries in microseconds, and
    for every phase the answers that make it succeed, if and only if. */
module Phases {
  import opened FileModel
  import opened Messages
  import opened Timer
  import opened ClientSpec

  // --------------------------------------------------------------------------- the clock

  /** The first turn is at least 200 ms past zero, as it is on any clock in use. */
  predicate Asks(o: Oracle) {
    o.ticks != [] && o.ticks[0].now.Valid() && o.ticks[0].now.Micros() >= 200_000
  }

  /** The intervals in microseconds. Between two of these bounds the test depends on the
      microsecond fields (`TimeOutIsWithinAMillisecond`). */
  lemma Intervals(now: Time, since: Time)
    requires now.Valid() && since.Valid()
    ensures now.Micros() - since.Micros() >= 200_000 ==> IsTimeOut(now, since, SEND_MSG_INTERVAL)
    ensures now.Micros() - since.Micros() <= 199_000 ==> !IsTimeOut(now, since, SEND_MSG_INTERVAL)
    ensures now.Micros() - since.Micros() >= 4_000_000 ==> IsTimeOut(now, since, SHORT_TIMEOUT)
    ensures now.Micros() - since.Micros() <= 3_999_000 ==> !IsTimeOut(now, since, SHORT_TIMEOUT)
    ensures now.Micros() - since.Micros() >= 6_000_000 ==> IsTimeOut(now, since, LONG_TIMEOUT)
    ensures now.Micros() - since.Micros() <= 5_999_000 ==> !IsTimeOut(now, since, LONG_TIMEOUT)
  {
    TimeOutIsWithinAMillisecond(now, since, SEND_MSG_INTERVAL);
    TimeOutIsWithinAMillisecond(now, since, SHORT_TIMEOUT);
    TimeOutIsWithinAMillisecond(now, since, LONG_TIMEOUT);
    hide IsTimeOut;
  }

  /** A turn 200 ms after the last request sends another, one up to 199 ms after it does not. */
  lemma SendsWhenDue(call: Call, p: Progress, t: Tick)
    requires t.now.Valid() && p.last.Valid()
    ensures t.now.Micros() - p.last.Micros() >= 200_000 ==>
              SendRequest(call, p, t).sent == p.sent + [Request(call.op, call.fd, call.name)]
              && SendRequest(call, p, t).last == t.afterSend
    ensures t.now.Micros() - p.last.Micros() <= 199_000 ==> SendRequest(call, p, t) == p
  {
    Intervals(t.now, p.last);
    SentOrNot(call, p, t);
    hide IsTimeOut, SendRequest;
  }

  /** The deadline of a call. A turn read late enough is its last, whatever packet it holds;
      one read early enough is not, unless its packet ends the call. */
  lemma DeadlineIsKept(call: Call, first: Time, p: Progress, ticks: seq<Tick>)
    requires p.client.Valid() && Deadline(ticks, first, call.timeout) && first.Valid() && ticks[0].now.Valid()
    ensures var late := if call.timeout == LONG_TIMEOUT then 6_000_000 else 4_000_000;
            var (q, ret) := Execute(call, first, p, ticks);
            (call.timeout == LONG_TIMEOUT || call.timeout == SHORT_TIMEOUT)
            && ticks[0].now.Micros() - first.Micros() >= late ==>
              q == SendRequest(call, p, ticks[0]) && q.client == p.client && q.recv == p.recv && ret != Again
    ensures var early := if call.timeout == LONG_TIMEOUT then 5_999_000 else 3_999_000;
            (call.timeout == LONG_TIMEOUT || call.timeout == SHORT_TIMEOUT)
            && ticks[0].now.Micros() - first.Micros() <= early && ticks[0].packet == None ==>
              Deadline(ticks[1..], first, call.timeout)
              && Execute(call, first, p, ticks) == Execute(call, first, SendRequest(call, p, ticks[0]), ticks[1..])
  {
    Intervals(ticks[0].now, first);
    ExecuteTurn(call, first, p, ticks);
    SentOrNot(call, p, ticks[0]);
    hide Execute, IsTimeOut, SendRequest;
  }

  // ------------------------------------------------------------------- what a phase sends

  predicate Only(ms: seq<Message>, m: Message) {
    forall k | 0 <= k < |ms| :: ms[k] == m
  }

  /** Every message is this VOTE or the client's own block for its id. */
  predicate VotesAndBlocks(ms: seq<Message>, fd: nat, cache: map<nat, Update>) {
    forall k | 0 <= k < |ms| ::
      ms[k] == Vote(fd)
      || (ms[k].WriteBlock? && ms[k].updateId in cache
          && ms[k] == WriteBlock(fd, ms[k].updateId, cache[ms[k].updateId]))
  }

  predicate BeginsWith(ms: seq<Message>, m: Message) {
    ms != [] && ms[0] == m
  }

  lemma OnlyMore(ms: seq<Message>, m: Message)
    ensures Only(ms, m) ==> Only(ms + [m], m)
  {
  }

  /** A phase other than VOTE sends its request and nothing else. */
  lemma {:induction false} PlainPhaseSends(call: Call, first: Time, p: Progress, ticks: seq<Tick>)
    requires p.client.Valid() && Deadline(ticks, first, call.timeout) && call.op != VOTE_OP
    requires Only(p.sent, Request(call.op, call.fd, call.name))
    ensures var (q, _) := Execute(call, first, p, ticks);
            p.sent <= q.sent && Only(q.sent, Request(call.op, call.fd, call.name))
    decreases |ticks|
  {
    var q := SendRequest(call, p, ticks[0]);
    SentOrNot(call, p, ticks[0]);
    OnlyMore(p.sent, Request(call.op, call.fd, call.name));
    if !IsTimeOut(ticks[0].now, first, call.timeout) {
      var (next, exit) := Receive(call, q, ticks[0].packet);
      assert next.sent == q.sent;
      if exit.None? {
        PlainPhaseSends(call, first, next, ticks[1..]);
      }
    }
  }

  /** Its first turn sends the request, even if it is also the last. */
  lemma FirstTurnAsks(call: Call, c: Client, recv: set<NodeId>, o: Oracle)
    requires c.Valid() && Deadline(o.ticks, o.first, call.timeout) && Asks(o)
    ensures var (q, _) := Execute(call, o.first, Start(c, recv), o.ticks);
            BeginsWith(q.sent, Request(call.op, call.fd, call.name))
  {
    var p, t := Start(c, recv), o.ticks[0];
    Intervals(t.now, Time(0, 0));
    SentOrNot(call, p, t);
    ExecuteTurn(call, o.first, p, o.ticks);
    var q := SendRequest(call, p, t);
    assert q.sent == [Request(call.op, call.fd, call.name)];
    if !IsTimeOut(t.now, o.first, call.timeout) {
      ReadOrNot(call, q, t.packet);
      var (next, exit) := Receive(call, q, t.packet);
      assert q.sent <= next.sent;
      if exit.None? {
        SentGrows(call, o.first, next, o.ticks[1..]);
      }
    }
    hide Execute, Receive, IsTimeOut;
  }

  lemma {:induction false} SentGrows(call: Call, first: Time, p: Progress, ticks: seq<Tick>)
    requires p.client.Valid() && Deadline(ticks, first, call.timeout)
    ensures p.sent <= Execute(call, first, p, ticks).0.sent
    decreases |ticks|
  {
    ExecuteTurn(call, first, p, ticks);
    SentOrNot(call, p, ticks[0]);
    var q := SendRequest(call, p, ticks[0]);
    if !IsTimeOut(ticks[0].now, first, call.timeout) {
      ReadOrNot(call, q, ticks[0].packet);
      var (next, exit) := Receive(call, q, ticks[0].packet);
      if exit.None? {
        SentGrows(call, first, next, ticks[1..]);
      }
    }
    hide Execute, Receive, IsTimeOut, SendRequest;
  }

  /** The cached blocks from number `x` to the last, in order. */
  predicate BlocksFrom(ms: seq<Message>, c: Client, fd: nat, x: nat) {
    && |ms| == (if x < c.updateId then c.updateId - x else 0)
    && forall k | 0 <= k < |ms| :: x + k in c.updateMap && ms[k] == WriteBlock(fd, x + k, c.updateMap[x + k])
  }

  /** What the smallest recorded answer lacks. */
  ghost predicate MissingBlocks(ms: seq<Message>, c: Client, fd: nat) {
    exists x: nat :: IsSmallest(c.recvServerUpdateId, x) && x != c.updateId && BlocksFrom(ms, c, fd, x)
  }

  lemma VotePacketSends(c: Client, recv: set<NodeId>, fd: nat, from: NodeId, m: Message)
    requires c.Valid()
    ensures var a := OnPacket(c, VOTE_OP, recv, fd, from, m);
            && a.client.updateMap == c.updateMap && a.client.updateId == c.updateId
            && (a.exit != Some(Again) ==> a.resend == [])
            && (a.exit == Some(Again) ==> MissingBlocks(a.resend, a.client, fd))
  {
    if MatchesOp(m, VOTE_OP) && from in c.serverIds && m.fileDesc >= 0 {
      var d := c.(recvServerUpdateId := c.recvServerUpdateId[from := m.updateId]);
      var x := Smallest(d.recvServerUpdateId);
      assert IsSmallest(d.recvServerUpdateId, x);
      assert BlocksFrom(Resend(d, fd, x), d, fd, x);
    }
  }

  /** A vote call sends VOTEs, and when it asks to be made again, behind them exactly the
      blocks that the smallest answer lacks. */
  lemma {:induction false} VotePhaseSends(call: Call, first: Time, p: Progress, ticks: seq<Tick>)
    requires p.client.Valid() && Deadline(ticks, first, call.timeout) && call.op == VOTE_OP
    requires Only(p.sent, Vote(call.fd))
    ensures var (q, ret) := Execute(call, first, p, ticks);
            exists k :: 0 <= k <= |q.sent| && Only(q.sent[..k], Vote(call.fd))
              && (if ret == Again then MissingBlocks(q.sent[k..], q.client, call.fd) else k == |q.sent|)
    decreases |ticks|
  {
    ExecuteTurn(call, first, p, ticks);
    SentOrNot(call, p, ticks[0]);
    OnlyMore(p.sent, Vote(call.fd));
    var q := SendRequest(call, p, ticks[0]);
    assert Only(q.sent, Vote(call.fd));
    if IsTimeOut(ticks[0].now, first, call.timeout) {
      assert q.sent[..|q.sent|] == q.sent;
    } else {
      ReadOrNot(call, q, ticks[0].packet);
      var (next, exit) := Receive(call, q, ticks[0].packet);
      if ticks[0].packet.Some? && ticks[0].packet.value.nodeId != call.me {
        VotePacketSends(q.client, q.recv, call.fd, ticks[0].packet.value.nodeId, ticks[0].packet.value.msg);
      }
      if exit.None? {
        assert next.sent == q.sent;
        VotePhaseSends(call, first, next, ticks[1..]);
      } else {
        var k := |q.sent|;
        assert next.sent[..k] == q.sent;
        if exit == Some(Again) {
          assert MissingBlocks(next.sent[k..], next.client, call.fd);
        } else {
          assert next.sent == q.sent;
        }
      }
    }
    hide Execute, Receive, IsTimeOut, SendRequest, MissingBlocks, OnPacket;
  }

  lemma VotesAndBlocksSent(ms: seq<Message>, k: nat, c: Client, fd: nat)
    requires k <= |ms| && Only(ms[..k], Vote(fd)) && (k == |ms| || MissingBlocks(ms[k..], c, fd))
    ensures VotesAndBlocks(ms, fd, c.updateMap)
  {
    if k < |ms| {
      var x: nat :| IsSmallest(c.recvServerUpdateId, x) && x != c.updateId && BlocksFrom(ms[k..], c, fd, x);
      forall i | k <= i < |ms|
        ensures x + (i - k) in c.updateMap && ms[i] == WriteBlock(fd, x + (i - k), c.updateMap[x + (i - k)])
      {
        assert ms[i] == ms[k..][i - k];
      }
    }
    assert forall i | 0 <= i < k :: ms[i] == ms[..k][i];
  }

  /** A vote call sends VOTEs and blocks of the cache, which it leaves alone. */
  lemma VoteTraffic(call: Call, c: Client, recv: set<NodeId>, o: Oracle)
    requires c.Valid() && Deadline(o.ticks, o.first, call.timeout) && call.op == VOTE_OP
    ensures VotesAndBlocks(Execute(call, o.first, Start(c, recv), o.ticks).0.sent, call.fd, c.updateMap)
  {
    var (q, ret) := Execute(call, o.first, Start(c, recv), o.ticks);
    VotePhaseSends(call, o.first, Start(c, recv), o.ticks);
    VotePhaseKeepsCache(call, o.first, Start(c, recv), o.ticks);
    var k :| 0 <= k <= |q.sent| && Only(q.sent[..k], Vote(call.fd))
      && (if ret == Again then MissingBlocks(q.sent[k..], q.client, call.fd) else k == |q.sent|);
    hide Execute, MissingBlocks;
    VotesAndBlocksSent(q.sent, k, q.client, call.fd);
  }

  /** ... and, to begin with, a VOTE. */
  lemma VoteRound(call: Call, c: Client, recv: set<NodeId>, o: Oracle)
    requires c.Valid() && Deadline(o.ticks, o.first, call.timeout) && call.op == VOTE_OP
    ensures var (q, _) := Execute(call, o.first, Start(c, recv), o.ticks);
            && SameButAnswers(c, q.client) && VotesAndBlocks(q.sent, call.fd, c.updateMap)
            && (Asks(o) ==> BeginsWith(q.sent, Vote(call.fd)))
  {
    hide Execute, VotesAndBlocks, Asks, Deadline;
    VotePhaseKeepsCache(call, o.first, Start(c, recv), o.ticks);
    VoteTraffic(call, c, recv, o);
    if Asks(o) {
      FirstTurnAsks(call, c, recv, o);
    }
  }

  lemma VotesThenVotes(ms: seq<Message>, ns: seq<Message>, fd: nat, cache: map<nat, Update>)
    requires VotesAndBlocks(ms, fd, cache) && VotesAndBlocks(ns, fd, cache)
    ensures VotesAndBlocks(ms + ns, fd, cache)
  {
  }

  /** One turn of the vote loop that `base` has entered, after `said` has been sent. */
  lemma VoteTurn(call: Call, base: Client, c: Client, recv: set<NodeId>, rounds: seq<Oracle>, said: seq<Message>)
    requires c.Valid() && (forall o | o in rounds :: Deadline(o.ticks, o.first, call.timeout)) && call.op == VOTE_OP
    requires rounds != [] && SameButAnswers(base, c) && VotesAndBlocks(said, call.fd, base.updateMap)
    ensures var (q, ret) := Execute(call, rounds[0].first, Start(c, recv), rounds[0].ticks);
            var rest := if ret == Again then VoteSent(call, q.client, q.recv, rounds[1..]) else [];
            && SameButAnswers(base, q.client) && VotesAndBlocks(said + q.sent, call.fd, base.updateMap)
            && ((if said == [] then Asks(rounds[0]) else BeginsWith(said, Vote(call.fd))) ==>
                  BeginsWith(said + q.sent, Vote(call.fd)))
            && said + VoteSent(call, c, recv, rounds) == (said + q.sent) + rest
            && VoteLoop(call, c, recv, rounds) ==
                 if ret == Again then VoteLoop(call, q.client, q.recv, rounds[1..]) else (q.client, q.recv, Some(ret))
  {
    hide Execute, VotesAndBlocks, Asks, Deadline, VoteSent, VoteLoop;
    VoteRound(call, c, recv, rounds[0]);
    VoteLoopTurn(call, c, recv, rounds);
    var (q, ret) := Execute(call, rounds[0].first, Start(c, recv), rounds[0].ticks);
    var rest := if ret == Again then VoteSent(call, q.client, q.recv, rounds[1..]) else [];
    VotesThenVotes(said, q.sent, call.fd, c.updateMap);
    assert said + (q.sent + rest) == (said + q.sent) + rest;
  }

  /** Any other call sends its request only, and at least once. */
  lemma PlainTraffic(call: Call, c: Client, recv: set<NodeId>, o: Oracle)
    requires c.Valid() && Deadline(o.ticks, o.first, call.timeout) && call.op != VOTE_OP
    ensures var (q, _) := Execute(call, o.first, Start(c, recv), o.ticks);
            Only(q.sent, Request(call.op, call.fd, call.name)) && (Asks(o) ==> q.sent != [])
  {
    PlainPhaseSends(call, o.first, Start(c, recv), o.ticks);
    if Asks(o) {
      FirstTurnAsks(call, c, recv, o);
    }
    hide Execute;
  }

  // ---------------------------------------------------------------------- how often it sends

  /** The traffic of a Commit: VOTEs and cached blocks, then COMMITs, then ABORTs. */
  predicate CommitTraffic(ms: seq<Message>, fd: nat, cache: map<nat, Update>, k: nat, l: nat) {
    && k <= l <= |ms|
    && VotesAndBlocks(ms[..k], fd, cache) && Only(ms[k..l], Commit(fd)) && Only(ms[l..], Abort(fd))
  }

  /** The traffic of a CloseFile: CLOSEs, and if a Commit is made inside it, that of the Commit
      and, unless it aborts, CLOSEs again. */
  predicate CloseTraffic(ms: seq<Message>, fd: nat, cache: map<nat, Update>, j: nat, k: nat, l: nat, m: nat) {
    && j <= k <= l <= m <= |ms|
    && Only(ms[..j], Close(fd)) && VotesAndBlocks(ms[j..k], fd, cache) && Only(ms[k..l], Commit(fd))
    && Only(ms[l..m], Abort(fd)) && Only(ms[m..], Close(fd)) && (l < m ==> m == |ms|)
  }

  /** What a Commit sends whose vote calls send `voted` and end with `vote`: a COMMIT after a
      normal vote only, an ABORT in a call that fails only, and then last. */
  ghost predicate CommitSends(ms: seq<Message>, fd: nat, cache: map<nat, Update>, voted: seq<Message>,
                              vote: Option<Ret>, ok: Option<bool>, commit: Oracle, abort: Oracle) {
    exists l: nat ::
      && voted <= ms && CommitTraffic(ms, fd, cache, |voted|, l)
      && (vote.None? ==> |voted| == |ms|)
      && (vote != Some(NormalReturn) ==> |voted| == l)
      && (vote == Some(NormalReturn) && Asks(commit) ==> |voted| < l)
      && (ok != Some(false) ==> l == |ms|)
      && (ok == Some(false) && Asks(abort) ==> l < |ms|)
  }

  /** Commit past its guards: how it returns, the client it leaves, and what it sends. With
      fewer vote calls than the loop needs there is no return. It is normal if and only if the
      vote was and all servers acknowledge the COMMIT in time. */
  ghost predicate CommitDoes(me: NodeId, fd: nat, c: Client, votes: seq<Oracle>, commit: Oracle, abort: Oracle,
                             d: Client, ok: Option<bool>, ms: seq<Message>)
    requires c.Valid() && CommitOracles(votes, commit, abort)
  {
    var call := Call(me, VOTE_OP, fd, [], LONG_TIMEOUT);
    var (asked, _, vote) := VoteLoop(call, c, {}, votes);
    var done := Completes(call.(op := COMMIT_OP), c.serverIds, c.serverIds, commit.first, commit.ticks);
    && ok == (if vote.None? then None else Some(vote == Some(NormalReturn) && done))
    && d == (if vote.None? then asked else c.Reset())
    && CommitSends(ms, fd, c.updateMap, VoteSent(call, c, {}, votes), vote, ok, commit, abort)
    && (votes != [] && Asks(votes[0]) ==> BeginsWith(ms, Vote(fd)))
  }

  /** What a CloseFile sends whose first pass finds updates or not: CLOSEs only if it does not;
      otherwise a Commit follows that returns as `committed` says, and if that is normally,
      CLOSEs again. */
  ghost predicate CloseSends(ms: seq<Message>, fd: nat, cache: map<nat, Update>, found: bool, voted: seq<Message>,
                             vote: Option<Ret>, committed: Option<bool>, close: Oracle, commit: Oracle, abort: Oracle,
                             again: Oracle) {
    if !found then Only(ms, Close(fd)) && (Asks(close) ==> ms != [])
    else
      exists j: nat, k: nat, l: nat, m: nat ::
        && CloseTraffic(ms, fd, cache, j, k, l, m) && ms[j..k] == voted
        && (Asks(close) ==> 0 < j)
        && (vote.None? ==> k == |ms|)
        && (vote != Some(NormalReturn) ==> k == l)
        && (vote == Some(NormalReturn) && Asks(commit) ==> k < l)
        && (committed == Some(true) ==> l == m && (Asks(again) ==> m < |ms|))
        && (committed == Some(false) ==> m == |ms| && (Asks(abort) ==> l < m))
  }

  /** How many of the messages are requests, that is, no blocks. */
  function Requests(ms: seq<Message>): nat {
    if ms == [] then 0
    else Requests(ms[..|ms| - 1]) + if ms[|ms| - 1].WriteBlock? then 0 else 1
  }

  lemma {:induction false} RequestsAppend(ms: seq<Message>, ns: seq<Message>)
    ensures Requests(ms + ns) == Requests(ms) + Requests(ns)
  {
    if ns == [] {
      assert ms + ns == ms;
    } else {
      var n := |ns| - 1;
      assert (ms + ns)[..|ms + ns| - 1] == ms + ns[..n] && (ms + ns)[|ms + ns| - 1] == ns[n];
      RequestsAppend(ms, ns[..n]);
    }
  }

  lemma {:induction false} NoRequests(ms: seq<Message>)
    requires forall m | m in ms :: m.WriteBlock?
    ensures Requests(ms) == 0
  {
    if ms != [] {
      var n := |ms| - 1;
      assert ms[n] in ms && forall m | m in ms[..n] :: m in ms;
      NoRequests(ms[..n]);
    }
  }

  lemma OneRequest(op: Op, fd: nat, name: Name)
    ensures Requests([Request(op, fd, name)]) == 1
  {
    var ms := [Request(op, fd, name)];
    assert ms[..0] == [] && Requests(ms[..0]) == 0;
  }

  lemma ResendIsBlocks(c: Client, op: Op, recv: set<NodeId>, fd: nat, from: NodeId, m: Message)
    requires c.Valid()
    ensures forall r | r in OnPacket(c, op, recv, fd, from, m).resend :: r.WriteBlock?
  {
  }

  /** `rounds` is the number of requests among the messages sent. */
  lemma {:induction false} RoundsAreRequests(call: Call, first: Time, p: Progress, ticks: seq<Tick>)
    requires p.client.Valid() && Deadline(ticks, first, call.timeout)
    ensures var (q, _) := Execute(call, first, p, ticks); q.rounds - p.rounds == Requests(q.sent) - Requests(p.sent)
    decreases |ticks|
  {
    ExecuteTurn(call, first, p, ticks);
    SendCounts(call, p, ticks[0]);
    SentOrNot(call, p, ticks[0]);
    var q := SendRequest(call, p, ticks[0]);
    if !IsTimeOut(ticks[0].now, first, call.timeout) {
      ReadOrNot(call, q, ticks[0].packet);
      ReadCounts(call, q, ticks[0].packet);
      var (next, exit) := Receive(call, q, ticks[0].packet);
      if exit.None? {
        RoundsAreRequests(call, first, next, ticks[1..]);
      }
    }
    hide Execute, Receive, IsTimeOut, SendRequest, Requests;
  }

  lemma SendCounts(call: Call, p: Progress, t: Tick)
    ensures var q := SendRequest(call, p, t); q.rounds - p.rounds == Requests(q.sent) - Requests(p.sent)
  {
    RequestsAppend(p.sent, [Request(call.op, call.fd, call.name)]);
    OneRequest(call.op, call.fd, call.name);
    hide Requests, IsTimeOut;
  }

  lemma ReadCounts(call: Call, p: Progress, packet: Option<Packet>)
    requires p.client.Valid()
    ensures var (q, _) := Receive(call, p, packet); q.rounds == p.rounds && Requests(q.sent) == Requests(p.sent)
  {
    if packet.Some? && packet.value.nodeId != call.me {
      var a := OnPacket(p.client, call.op, p.recv, call.fd, packet.value.nodeId, packet.value.msg);
      ResendIsBlocks(p.client, call.op, p.recv, call.fd, packet.value.nodeId, packet.value.msg);
      RequestsAppend(p.sent, a.resend);
      NoRequests(a.resend);
    }
    hide OnPacket, Requests;
  }

  /** At most 32 requests in a call with the long timeout, 22 with the short one. */
  lemma RequestsPerCall(call: Call, first: Time, c: Client, recv: set<NodeId>, ticks: seq<Tick>)
    requires c.Valid() && Deadline(ticks, first, call.timeout) && Monotone(first, ticks)
    ensures var (q, _) := Execute(call, first, Start(c, recv), ticks);
            && (call.timeout == LONG_TIMEOUT ==> Requests(q.sent) <= 32)
            && (call.timeout == SHORT_TIMEOUT ==> Requests(q.sent) <= 22)
  {
    RequestsAreSpaced(call, first, Start(c, recv), first, ticks);
    RoundsAreRequests(call, first, Start(c, recv), ticks);
    hide Execute;
  }

  /** A monotone clock on which every turn, its send included, takes at most `gap`
      microseconds. */
  predicate Steady(since: Time, ticks: seq<Tick>, gap: nat)
    decreases |ticks|
  {
    since.Valid()
    && (ticks != [] ==>
          && ticks[0].now.Valid() && ticks[0].afterSend.Valid()
          && since.Micros() <= ticks[0].now.Micros() <= ticks[0].afterSend.Micros() <= since.Micros() + gap
          && Steady(ticks[0].afterSend, ticks[1..], gap))
  }

  /** No packet that the phase would read arrives. */
  predicate Silent(call: Call, ticks: seq<Tick>) {
    forall t | t in ticks && t.packet.Some? ::
      t.packet.value.nodeId == call.me || !MatchesOp(t.packet.value.msg, call.op)
  }

  /** After `rounds` requests, the last at `last`, no later than `since`: the requests fill
      the time since `first`. */
  predicate Filled(first: int, last: int, since: int, rounds: nat, width: nat, gap: nat) {
    last <= first + rounds * width && since <= last + 200_000 + gap
  }

  lemma FilledOn(first: int, last: int, since: int, rounds: nat, now: int, after: int, width: nat, gap: nat)
    requires Filled(first, last, since, rounds, width, gap) && width == 200_000 + 2 * gap
    requires since <= now <= after <= since + gap
    ensures Filled(first, after, after, rounds + 1, width, gap)
    ensures now - last < 200_000 ==> Filled(first, last, after, rounds, width, gap)
    ensures now <= first + (rounds + 1) * width
  {
    assert (rounds + 1) * width == rounds * width + width;
  }

  /** What one turn of a steady clock does to the requests. */
  lemma SteadyTurn(call: Call, first: Time, p: Progress, since: Time, t: Tick, width: nat, gap: nat)
    requires first.Valid() && p.last.Valid() && t.now.Valid() && t.afterSend.Valid() && width == 200_000 + 2 * gap
    requires since.Micros() <= t.now.Micros() <= t.afterSend.Micros() <= since.Micros() + gap
    requires Filled(first.Micros(), p.last.Micros(), since.Micros(), p.rounds, width, gap)
    ensures var q := SendRequest(call, p, t);
            && q.last.Valid() && q.client == p.client
            && Filled(first.Micros(), q.last.Micros(), t.afterSend.Micros(), q.rounds, width, gap)
            && t.now.Micros() < first.Micros() + q.rounds * width + 200_000 + 1
  {
    Intervals(t.now, p.last);
    FilledOn(first.Micros(), p.last.Micros(), since.Micros(), p.rounds, t.now.Micros(), t.afterSend.Micros(), width,
             gap);
    hide IsTimeOut, Time.Micros;
  }

  /** What is not answered is asked again: the requests and the longest time between two of
      them fill the time until the deadline. */
  lemma {:induction false} SilenceIsAsked(call: Call, first: Time, p: Progress, since: Time, ticks: seq<Tick>,
                                          width: nat, gap: nat)
    requires p.client.Valid() && Deadline(ticks, first, call.timeout) && Silent(call, ticks)
    requires Steady(since, ticks, gap) && first.Valid() && p.last.Valid() && width == 200_000 + 2 * gap
    requires Filled(first.Micros(), p.last.Micros(), since.Micros(), p.rounds, width, gap)
    ensures 1000 * call.timeout - 1000 < Execute(call, first, p, ticks).0.rounds * width + 200_001
    decreases |ticks|
  {
    var t, q := ticks[0], SendRequest(call, p, ticks[0]);
    assert t in ticks && forall u | u in ticks[1..] :: u in ticks;
    TimeOutIsWithinAMillisecond(t.now, first, call.timeout);
    SteadyTurn(call, first, p, since, t, width, gap);
    ExecuteTurn(call, first, p, ticks);
    hide Execute, SendRequest, IsTimeOut, Receive, Filled, Time.Micros;
    if !IsTimeOut(t.now, first, call.timeout) {
      UnreadPacket(call, q, t.packet);
      SilenceIsAsked(call, first, q, t.afterSend, ticks[1..], width, gap);
    }
  }

  lemma UnreadPacket(call: Call, p: Progress, packet: Option<Packet>)
    requires p.client.Valid()
    requires packet.Some? ==> packet.value.nodeId == call.me || !MatchesOp(packet.value.msg, call.op)
    ensures Receive(call, p, packet) == (p, None)
  {
    assert p.sent + [] == p.sent;
  }

  /** With a reading at least every 50 ms, a call that nobody answers asks at least 20 times
      in six seconds, 13 times in four. */
  lemma RequestsAreRepeated(call: Call, first: Time, c: Client, recv: set<NodeId>, ticks: seq<Tick>)
    requires c.Valid() && Deadline(ticks, first, call.timeout) && Silent(call, ticks)
    requires first.Valid() && first.Micros() >= 200_000 && Steady(first, ticks, 50_000)
    ensures var (q, _) := Execute(call, first, Start(c, recv), ticks);
            && (call.timeout == LONG_TIMEOUT ==> Requests(q.sent) >= 20)
            && (call.timeout == SHORT_TIMEOUT ==> Requests(q.sent) >= 13)
  {
    var p, t := Start(c, recv), ticks[0];
    var q := SendRequest(call, p, t);
    Intervals(t.now, Time(0, 0));
    assert q.last == t.afterSend && q.rounds == 1 && q.client == c;
    assert Filled(first.Micros(), q.last.Micros(), t.afterSend.Micros(), 1, 300_000, 50_000);
    assert t in ticks && forall u | u in ticks[1..] :: u in ticks;
    RoundsAreRequests(call, first, p, ticks);
    ExecuteTurn(call, first, p, ticks);
    Intervals(t.now, first);
    hide Execute, SendRequest, IsTimeOut, Receive, Filled, Time.Micros;
    if !IsTimeOut(t.now, first, call.timeout) {
      UnreadPacket(call, q, t.packet);
      SilenceIsAsked(call, first, q, t.afterSend, ticks[1..], 300_000, 50_000);
    }
  }

  // ------------------------------------------------------------- which answers end a phase how

  /** The first `n` turns are read before the deadline. */
  predicate InTime(call: Call, first: Time, ticks: seq<Tick>, n: nat) {
    n <= |ticks| && forall j | 0 <= j < n :: !IsTimeOut(ticks[j].now, first, call.timeout)
  }

  /** An answer of the phase from a known server, other than the client itself. */
  predicate IsAnswer(call: Call, ids: set<NodeId>, packet: Option<Packet>) {
    && packet.Some? && packet.value.nodeId != call.me && packet.value.nodeId in ids
    && call.op != INIT_OP && MatchesOp(packet.value.msg, call.op)
  }

  /** ... that reports an error, or that updates are held. */
  predicate Refuses(call: Call, ids: set<NodeId>, packet: Option<Packet>) {
    && IsAnswer(call, ids, packet)
    && (packet.value.msg.fileDesc < 0 || packet.value.msg == CloseAck(1))
  }

  /** Server `s` gives an answer that counts. */
  predicate Agrees(call: Call, packet: Option<Packet>, s: NodeId) {
    IsAnswer(call, {s}, packet) && !Refuses(call, {s}, packet)
  }

  predicate Refused(call: Call, ids: set<NodeId>, ticks: seq<Tick>) {
    exists i :: 0 <= i < |ticks| && Refuses(call, ids, ticks[i].packet)
  }

  predicate HasAgreed(call: Call, ticks: seq<Tick>, s: NodeId) {
    exists i :: 0 <= i < |ticks| && Agrees(call, ticks[i].packet, s)
  }

  predicate AllAgree(call: Call, missing: set<NodeId>, ticks: seq<Tick>) {
    forall s | s in missing :: HasAgreed(call, ticks, s)
  }

  /** In the first `n` turns, in time, all missing servers have given answers that count, and no
      known server has refused. */
  predicate CompletesBy(call: Call, ids: set<NodeId>, missing: set<NodeId>, first: Time, ticks: seq<Tick>, n: nat) {
    InTime(call, first, ticks, n) && !Refused(call, ids, ticks[..n]) && AllAgree(call, missing, ticks[..n])
  }

  ghost predicate Completes(call: Call, ids: set<NodeId>, missing: set<NodeId>, first: Time, ticks: seq<Tick>) {
    exists n: nat :: CompletesBy(call, ids, missing, first, ticks, n)
  }

  /** Turn `n` answers CLOSE with 1, in time, before the missing servers have all answered and
      before any other refusal. */
  predicate FindsAt(call: Call, ids: set<NodeId>, missing: set<NodeId>, first: Time, ticks: seq<Tick>, n: nat) {
    && n < |ticks| && InTime(call, first, ticks, n + 1) && !Refused(call, ids, ticks[..n])
    && !AllAgree(call, missing, ticks[..n]) && HoldsUpdates(call, ids, ticks[n].packet)
  }

  predicate HoldsUpdates(call: Call, ids: set<NodeId>, packet: Option<Packet>) {
    IsAnswer(call, ids, packet) && packet.value.msg == CloseAck(1)
  }

  ghost predicate FindsUpdates(call: Call, ids: set<NodeId>, missing: set<NodeId>, first: Time, ticks: seq<Tick>) {
    exists n: nat :: FindsAt(call, ids, missing, first, ticks, n)
  }

  /** The servers that the packet makes count. */
  function Heard(call: Call, ids: set<NodeId>, packet: Option<Packet>): set<NodeId> {
    if IsAnswer(call, ids, packet) && !Refuses(call, ids, packet) then {packet.value.nodeId} else {}
  }

  lemma AgreesIsHeard(call: Call, ids: set<NodeId>, packet: Option<Packet>)
    ensures forall s | s in ids :: Agrees(call, packet, s) <==> s in Heard(call, ids, packet)
    ensures Heard(call, ids, packet) <= ids
    ensures Refuses(call, ids, packet) ==> Heard(call, ids, packet) == {}
  {
  }

  lemma RefusedStep(call: Call, ids: set<NodeId>, ticks: seq<Tick>, n: nat)
    requires n < |ticks|
    ensures Refused(call, ids, ticks[..n + 1]) <==>
              Refuses(call, ids, ticks[0].packet) || Refused(call, ids, ticks[1..][..n])
  {
    hide Refuses;
    assert ticks[..n + 1][0] == ticks[0];
    if Refused(call, ids, ticks[..n + 1]) && !Refuses(call, ids, ticks[0].packet) {
      var i :| 0 <= i < n + 1 && Refuses(call, ids, ticks[..n + 1][i].packet);
      assert ticks[1..][..n][i - 1] == ticks[..n + 1][i];
    }
    if Refused(call, ids, ticks[1..][..n]) {
      var i :| 0 <= i < n && Refuses(call, ids, ticks[1..][..n][i].packet);
      assert ticks[..n + 1][i + 1] == ticks[1..][..n][i];
    }
  }

  lemma HasAgreedStep(call: Call, ticks: seq<Tick>, n: nat, s: NodeId)
    requires n < |ticks|
    ensures HasAgreed(call, ticks[..n + 1], s) <==>
              Agrees(call, ticks[0].packet, s) || HasAgreed(call, ticks[1..][..n], s)
  {
    hide Agrees;
    var xs, ys := ticks[..n + 1], ticks[1..][..n];
    assert xs[0] == ticks[0] && forall i | 0 <= i < n :: ys[i] == xs[i + 1];
    if HasAgreed(call, xs, s) && !Agrees(call, ticks[0].packet, s) {
      var i :| 0 <= i < |xs| && Agrees(call, xs[i].packet, s);
      assert ys[i - 1] == xs[i];
    }
    if HasAgreed(call, ys, s) {
      var i :| 0 <= i < |ys| && Agrees(call, ys[i].packet, s);
      assert xs[i + 1] == ys[i];
    }
  }

  lemma AllAgreeStep(call: Call, ids: set<NodeId>, missing: set<NodeId>, ticks: seq<Tick>, n: nat)
    requires n < |ticks| && missing <= ids
    ensures AllAgree(call, missing, ticks[..n + 1]) <==>
              AllAgree(call, missing - Heard(call, ids, ticks[0].packet), ticks[1..][..n])
  {
    AgreesIsHeard(call, ids, ticks[0].packet);
    hide Agrees, Heard, HasAgreed;
    forall s | s in missing
      ensures HasAgreed(call, ticks[..n + 1], s) <==>
                s in Heard(call, ids, ticks[0].packet) || HasAgreed(call, ticks[1..][..n], s)
    {
      HasAgreedStep(call, ticks, n, s);
    }
  }

  lemma InTimeStep(call: Call, first: Time, ticks: seq<Tick>, n: nat)
    requires ticks != [] && !IsTimeOut(ticks[0].now, first, call.timeout)
    ensures InTime(call, first, ticks, n + 1) <==> InTime(call, first, ticks[1..], n)
  {
    hide IsTimeOut;
    if InTime(call, first, ticks[1..], n) {
      forall j | 0 <= j < n + 1
        ensures !IsTimeOut(ticks[j].now, first, call.timeout)
      {
        assert j > 0 ==> ticks[1..][j - 1] == ticks[j];
      }
    }
  }

  lemma InTimeMeans(call: Call, first: Time, ticks: seq<Tick>, n: nat)
    requires InTime(call, first, ticks, n)
    ensures n <= |ticks| && (n > 0 ==> !IsTimeOut(ticks[0].now, first, call.timeout))
    ensures n > 0 ==> InTime(call, first, ticks, n - 1)
  {
    hide IsTimeOut;
  }

  lemma NoneMissing(call: Call, ids: set<NodeId>, first: Time, ticks: seq<Tick>)
    ensures Completes(call, ids, {}, first, ticks) && !FindsUpdates(call, ids, {}, first, ticks)
  {
    assert CompletesBy(call, ids, {}, first, ticks, 0);
    hide InTime, Refused, HoldsUpdates;
  }

  /** A server that is missing at first has given no answer then. */
  lemma SomeMissing(call: Call, missing: set<NodeId>, ticks: seq<Tick>)
    requires missing != {}
    ensures !AllAgree(call, missing, ticks[..0])
  {
    var s :| s in missing;
    assert !HasAgreed(call, ticks[..0], s);
  }

  /** A refusal among the first turns. */
  lemma FirstRefuses(call: Call, ids: set<NodeId>, ticks: seq<Tick>, n: nat)
    requires 0 < n <= |ticks| && Refuses(call, ids, ticks[0].packet)
    ensures Refused(call, ids, ticks[..n])
  {
    hide Refuses;
    assert ticks[..n][0] == ticks[0];
  }

  /** A turn past the deadline, or one with a refusal, ends the phase. */
  lemma TurnEnds(call: Call, ids: set<NodeId>, missing: set<NodeId>, first: Time, ticks: seq<Tick>)
    requires ticks != [] && missing != {}
    requires IsTimeOut(ticks[0].now, first, call.timeout) || Refuses(call, ids, ticks[0].packet)
    ensures !Completes(call, ids, missing, first, ticks)
    ensures FindsUpdates(call, ids, missing, first, ticks) <==>
              !IsTimeOut(ticks[0].now, first, call.timeout) && HoldsUpdates(call, ids, ticks[0].packet)
  {
    SomeMissing(call, missing, ticks);
    forall n: nat
      ensures !CompletesBy(call, ids, missing, first, ticks, n)
    {
      if n > 0 && CompletesBy(call, ids, missing, first, ticks, n) {
        InTimeMeans(call, first, ticks, n);
        FirstRefuses(call, ids, ticks, n);
      }
    }
    forall n: nat
      ensures FindsAt(call, ids, missing, first, ticks, n) ==> n == 0 && !IsTimeOut(ticks[0].now, first, call.timeout)
    {
      if FindsAt(call, ids, missing, first, ticks, n) {
        InTimeMeans(call, first, ticks, n + 1);
        if n > 0 {
          FirstRefuses(call, ids, ticks, n);
        }
      }
    }
    if !IsTimeOut(ticks[0].now, first, call.timeout) && HoldsUpdates(call, ids, ticks[0].packet) {
      assert FindsAt(call, ids, missing, first, ticks, 0);
    }
  }

  lemma HoldersRefuse(call: Call, ids: set<NodeId>, packet: Option<Packet>)
    ensures HoldsUpdates(call, ids, packet) ==> Refuses(call, ids, packet)
  {
  }

  lemma CompletesByStep(call: Call, ids: set<NodeId>, missing: set<NodeId>, first: Time, ticks: seq<Tick>, n: nat)
    requires ticks != [] && n < |ticks| && missing <= ids
    requires !IsTimeOut(ticks[0].now, first, call.timeout) && !Refuses(call, ids, ticks[0].packet)
    ensures CompletesBy(call, ids, missing, first, ticks, n + 1) <==>
              CompletesBy(call, ids, missing - Heard(call, ids, ticks[0].packet), first, ticks[1..], n)
  {
    InTimeStep(call, first, ticks, n);
    RefusedStep(call, ids, ticks, n);
    AllAgreeStep(call, ids, missing, ticks, n);
    hide IsTimeOut, Refuses, InTime, Refused, AllAgree, Heard;
  }

  lemma FindsAtStep(call: Call, ids: set<NodeId>, missing: set<NodeId>, first: Time, ticks: seq<Tick>, n: nat)
    requires ticks != [] && n + 1 < |ticks| && missing <= ids
    requires !IsTimeOut(ticks[0].now, first, call.timeout) && !Refuses(call, ids, ticks[0].packet)
    ensures FindsAt(call, ids, missing, first, ticks, n + 1) <==>
              FindsAt(call, ids, missing - Heard(call, ids, ticks[0].packet), first, ticks[1..], n)
  {
    InTimeStep(call, first, ticks, n + 1);
    RefusedStep(call, ids, ticks, n);
    AllAgreeStep(call, ids, missing, ticks, n);
    hide IsTimeOut, Refuses, InTime, Refused, AllAgree, Heard, HoldsUpdates;
    assert ticks[1..][n] == ticks[n + 1];
  }

  /** Any other turn adds the server whose answer it holds. */
  lemma TurnGoesOn(call: Call, ids: set<NodeId>, missing: set<NodeId>, first: Time, ticks: seq<Tick>)
    requires ticks != [] && missing != {} && missing <= ids
    requires !IsTimeOut(ticks[0].now, first, call.timeout) && !Refuses(call, ids, ticks[0].packet)
    ensures var rest := missing - Heard(call, ids, ticks[0].packet);
            && (Completes(call, ids, missing, first, ticks) <==> Completes(call, ids, rest, first, ticks[1..]))
            && (FindsUpdates(call, ids, missing, first, ticks) <==> FindsUpdates(call, ids, rest, first, ticks[1..]))
  {
    SomeMissing(call, missing, ticks);
    HoldersRefuse(call, ids, ticks[0].packet);
    var rest := missing - Heard(call, ids, ticks[0].packet);
    assert !CompletesBy(call, ids, missing, first, ticks, 0) && !FindsAt(call, ids, missing, first, ticks, 0);
    forall n: nat
      ensures CompletesBy(call, ids, missing, first, ticks, n + 1) <==>
                CompletesBy(call, ids, rest, first, ticks[1..], n)
      ensures FindsAt(call, ids, missing, first, ticks, n + 1) <==> FindsAt(call, ids, rest, first, ticks[1..], n)
    {
      if n < |ticks| {
        CompletesByStep(call, ids, missing, first, ticks, n);
      }
      if n + 1 < |ticks| {
        FindsAtStep(call, ids, missing, first, ticks, n);
      }
    }
    hide CompletesBy, FindsAt, IsTimeOut, Refuses, Heard;
    if Completes(call, ids, missing, first, ticks) {
      var n: nat :| CompletesBy(call, ids, missing, first, ticks, n);
      assert CompletesBy(call, ids, rest, first, ticks[1..], n - 1);
    }
    if FindsUpdates(call, ids, missing, first, ticks) {
      var n: nat :| FindsAt(call, ids, missing, first, ticks, n);
      assert FindsAt(call, ids, rest, first, ticks[1..], n - 1);
    }
  }

  /** The set with which a phase goes on is not full. */
  predicate Open(c: Client, recv: set<NodeId>) {
    recv <= c.serverIds && |c.serverIds| == c.numServers && (recv != c.serverIds || recv == {})
  }

  lemma VotePacketEnds(c: Client, recv: set<NodeId>, fd: nat, from: NodeId, m: Message)
    requires c.Valid() && Open(c, recv) && m.VoteAck?
    ensures var a := OnPacket(c, VOTE_OP, recv, fd, from, m);
            if from !in c.serverIds then
              a.recv == recv && (a.exit.None? || c.serverIds == {}) && a.exit != Some(ErrorReturn)
            else if m.fileDesc < 0 then a.recv == recv && a.exit == Some(ErrorReturn)
            else a.recv == recv + {from} && (a.exit.Some? <==> a.recv == c.serverIds) && a.exit != Some(ErrorReturn)
  {
    SubsetCardinality(recv, c.serverIds);
    if from in c.serverIds {
      SubsetCardinality(recv + {from}, c.serverIds);
    }
    hide Resend, Smallest, IsSmallest;
  }

  lemma PlainPacketEnds(c: Client, op: Op, recv: set<NodeId>, fd: nat, from: NodeId, m: Message)
    requires c.Valid() && Open(c, recv) && op != INIT_OP && op != VOTE_OP && MatchesOp(m, op)
    ensures var a := OnPacket(c, op, recv, fd, from, m);
            if from !in c.serverIds then
              a.recv == recv && (a.exit.None? || (c.serverIds == {} && a.exit == Some(NormalReturn)))
            else if m.fileDesc < 0 then a.recv == recv && a.exit == Some(ErrorReturn)
            else if m == CloseAck(1) then a.recv == recv && a.exit == Some(Again)
            else
              a.recv == recv + {from} && a.exit == if a.recv == c.serverIds then Some(NormalReturn) else None
  {
    SubsetCardinality(recv, c.serverIds);
    if from in c.serverIds {
      SubsetCardinality(recv + {from}, c.serverIds);
    }
  }

  lemma PacketEnds(call: Call, p: Progress, packet: Option<Packet>)
    requires p.client.Valid() && call.op != INIT_OP && Open(p.client, p.recv)
    ensures var (q, exit) := Receive(call, p, packet);
            && q.client.serverIds == p.client.serverIds && q.client.numServers == p.client.numServers
            && (if Refuses(call, p.client.serverIds, packet) then
                  exit == Some(if packet.value.msg.fileDesc < 0 then ErrorReturn else Again) && q.recv == p.recv
                else
                  && q.recv == p.recv + Heard(call, p.client.serverIds, packet)
                  && (exit.None? ==> Open(q.client, q.recv))
                  && (exit.Some? ==> q.recv == q.client.serverIds && exit != Some(ErrorReturn)
                                     && (call.op != VOTE_OP ==> exit == Some(NormalReturn))))
  {
    ReadOrNot(call, p, packet);
    if packet.Some? {
      var from, m := packet.value.nodeId, packet.value.msg;
      if call.op == VOTE_OP && m.VoteAck? {
        VotePacketEnds(p.client, p.recv, call.fd, from, m);
      } else if call.op != VOTE_OP && MatchesOp(m, call.op) {
        PlainPacketEnds(p.client, call.op, p.recv, call.fd, from, m);
      }
    }
    hide Receive, OnVoteAck;
  }

  lemma OpenIsPartial(c: Client, recv: set<NodeId>)
    requires Open(c, recv)
    ensures recv <= c.serverIds && (c.serverIds - recv == {} ==> c.serverIds == {})
    ensures |recv| < c.numServers <==> c.serverIds - recv != {}
  {
    SubsetCardinality(recv, c.serverIds);
    assert c.serverIds == recv + (c.serverIds - recv);
  }

  lemma RefusalKinds(call: Call, ids: set<NodeId>, packet: Option<Packet>)
    requires Refuses(call, ids, packet)
    ensures ids != {} && (packet.value.msg.fileDesc < 0 <==> !HoldsUpdates(call, ids, packet))
    ensures call.op == VOTE_OP ==> packet.value.msg.fileDesc < 0
  {
  }

  /** What one turn says of how the phase ends. */
  lemma TurnDecides(call: Call, ids: set<NodeId>, missing: set<NodeId>, first: Time, ticks: seq<Tick>)
    requires ticks != [] && missing <= ids && (missing == {} ==> ids == {})
    ensures var rest := missing - Heard(call, ids, ticks[0].packet);
            if IsTimeOut(ticks[0].now, first, call.timeout) then
              && (Completes(call, ids, missing, first, ticks) <==> missing == {})
              && !FindsUpdates(call, ids, missing, first, ticks)
            else if Refuses(call, ids, ticks[0].packet) then
              && !Completes(call, ids, missing, first, ticks)
              && (FindsUpdates(call, ids, missing, first, ticks) <==> HoldsUpdates(call, ids, ticks[0].packet))
            else
              && (Completes(call, ids, missing, first, ticks) <==> Completes(call, ids, rest, first, ticks[1..]))
              && (FindsUpdates(call, ids, missing, first, ticks) <==> FindsUpdates(call, ids, rest, first, ticks[1..]))
  {
    if Refuses(call, ids, ticks[0].packet) {
      RefusalKinds(call, ids, ticks[0].packet);
    }
    hide *;
    if missing == {} {
      NoneMissing(call, ids, first, ticks);
      NoneMissing(call, ids, first, ticks[1..]);
      assert missing - Heard(call, ids, ticks[0].packet) == {};
    } else if IsTimeOut(ticks[0].now, first, call.timeout) || Refuses(call, ids, ticks[0].packet) {
      TurnEnds(call, ids, missing, first, ticks);
    } else {
      TurnGoesOn(call, ids, missing, first, ticks);
    }
  }

  /** How a phase ends, exactly. From the clock and the packets alone: an OPEN, COMMIT, ABORT
      or CLOSE call returns normally if and only if all missing servers have answered in time
      and none has refused before; it returns 1 if and only if a CLOSE was answered with 1
      before that; and it returns an error in all other cases. A vote call returns an error
      exactly if some server did not vote in time or one reported an error before. */
  lemma {:induction false} PhaseReturns(call: Call, first: Time, p: Progress, ticks: seq<Tick>)
    requires p.client.Valid() && Deadline(ticks, first, call.timeout) && call.op != INIT_OP && Open(p.client, p.recv)
    ensures var ids := p.client.serverIds;
            var (q, ret) := Execute(call, first, p, ticks);
            && (call.op != VOTE_OP ==>
                  && (ret == NormalReturn <==> Completes(call, ids, ids - p.recv, first, ticks))
                  && (ret == Again <==> FindsUpdates(call, ids, ids - p.recv, first, ticks)))
            && (call.op == VOTE_OP ==> (ret != ErrorReturn <==> Completes(call, ids, ids - p.recv, first, ticks)))
            && (ret == Again && call.op != VOTE_OP ==> Open(q.client, q.recv))
            && q.client.serverIds == ids && q.client.numServers == p.client.numServers
    decreases |ticks|
  {
    var ids, t := p.client.serverIds, ticks[0];
    ExecuteTurn(call, first, p, ticks);
    SentOrNot(call, p, t);
    var q := SendRequest(call, p, t);
    PacketEnds(call, q, t.packet);
    var (next, exit) := Receive(call, q, t.packet);
    FinishByCount(q.client, call.op, q.recv);
    if Refuses(call, ids, t.packet) {
      RefusalKinds(call, ids, t.packet);
    }
    OpenIsPartial(p.client, p.recv);
    TurnDecides(call, ids, ids - p.recv, first, ticks);
    assert ids - p.recv - Heard(call, ids, t.packet) == ids - (p.recv + Heard(call, ids, t.packet));
    NoneMissing(call, ids, first, ticks[1..]);
    hide *;
    if !IsTimeOut(t.now, first, call.timeout) {
      if exit.None? {
        PhaseReturns(call, first, next, ticks[1..]);
      } else if !Refuses(call, ids, t.packet) {
        assert ids - next.recv == {};
      }
    }
  }

  /** The servers whose answers count among these turns. */
  function AgreedIn(call: Call, ids: set<NodeId>, ticks: seq<Tick>): set<NodeId> {
    set s | s in ids && HasAgreed(call, ticks, s)
  }

  lemma AgreedInStep(call: Call, ids: set<NodeId>, ticks: seq<Tick>, n: nat)
    requires n < |ticks|
    ensures AgreedIn(call, ids, ticks[..n + 1]) ==
              Heard(call, ids, ticks[0].packet) + AgreedIn(call, ids, ticks[1..][..n])
    ensures AgreedIn(call, ids, ticks[..0]) == {}
  {
    AgreesIsHeard(call, ids, ticks[0].packet);
    forall s | s in ids
      ensures HasAgreed(call, ticks[..n + 1], s) <==>
                s in Heard(call, ids, ticks[0].packet) || HasAgreed(call, ticks[1..][..n], s)
    {
      HasAgreedStep(call, ticks, n, s);
    }
    hide Agrees, Heard;
  }

  lemma RefusedBy(call: Call, ids: set<NodeId>, ticks: seq<Tick>, n: nat, m: nat)
    requires n < m <= |ticks| && Refuses(call, ids, ticks[n].packet)
    ensures Refused(call, ids, ticks[..m])
  {
    hide Refuses;
    assert ticks[..m][n] == ticks[n];
  }

  lemma FindsOnce(call: Call, ids: set<NodeId>, missing: set<NodeId>, first: Time, ticks: seq<Tick>, n: nat, m: nat)
    requires FindsAt(call, ids, missing, first, ticks, n) && FindsAt(call, ids, missing, first, ticks, m)
    ensures n == m
  {
    hide Refuses, Refused, HoldsUpdates, InTime, AllAgree;
    HoldersRefuse(call, ids, ticks[n].packet);
    HoldersRefuse(call, ids, ticks[m].packet);
    if n < m {
      RefusedBy(call, ids, ticks, n, m);
    } else if m < n {
      RefusedBy(call, ids, ticks, m, n);
    }
  }

  lemma CloseTurn(call: Call, first: Time, p: Progress, ticks: seq<Tick>)
    requires p.client.Valid() && Deadline(ticks, first, call.timeout) && call.op == CLOSE_OP && Open(p.client, p.recv)
    ensures ticks != [] && SendRequest(call, p, ticks[0]).client == p.client
    ensures var ids, t := p.client.serverIds, ticks[0];
            var (q, ret) := Execute(call, first, p, ticks);
            if IsTimeOut(t.now, first, call.timeout) then ret != Again
            else if Refuses(call, ids, t.packet) then
              ret == Again ==> HoldsUpdates(call, ids, t.packet) && q.recv == p.recv && ids - p.recv != {}
            else
              var (next, exit) := Receive(call, SendRequest(call, p, t), t.packet);
              if exit.Some? then ret != Again
              else
                && Deadline(ticks[1..], first, call.timeout) && (q, ret) == Execute(call, first, next, ticks[1..])
                && next.recv == p.recv + Heard(call, ids, t.packet) && Open(next.client, next.recv)
                && next.client.serverIds == ids && next.client.Valid()
  {
    ExecuteTurn(call, first, p, ticks);
    SentOrNot(call, p, ticks[0]);
    var q := SendRequest(call, p, ticks[0]);
    PacketEnds(call, q, ticks[0].packet);
    FinishByCount(q.client, call.op, q.recv);
    OpenIsPartial(p.client, p.recv);
    if Refuses(call, p.client.serverIds, ticks[0].packet) {
      RefusalKinds(call, p.client.serverIds, ticks[0].packet);
    }
    hide *;
  }

  /** The set with which a CLOSE pass finds updates. */
  lemma {:induction false} FoundWith(call: Call, first: Time, p: Progress, ticks: seq<Tick>) returns (n: nat)
    requires p.client.Valid() && Deadline(ticks, first, call.timeout) && call.op == CLOSE_OP && Open(p.client, p.recv)
    ensures var ids := p.client.serverIds;
            var (q, ret) := Execute(call, first, p, ticks);
            ret == Again ==>
              && FindsAt(call, ids, ids - p.recv, first, ticks, n) && n < |ticks|
              && q.recv == p.recv + AgreedIn(call, ids, ticks[..n])
    decreases |ticks|
  {
    hide *;
    CloseTurn(call, first, p, ticks);
    var ids, t := p.client.serverIds, ticks[0];
    var (q, ret) := Execute(call, first, p, ticks);
    AgreedInStep(call, ids, ticks, 0);
    n := 0;
    if ret == Again {
      if Refuses(call, ids, t.packet) {
        FindsNow(call, ids, ids - p.recv, first, ticks);
      } else {
        var (next, _) := Receive(call, SendRequest(call, p, t), t.packet);
        var m := FoundWith(call, first, next, ticks[1..]);
        n := m + 1;
        FindsLater(call, ids, p.recv, first, ticks, m);
        AgreedInStep(call, ids, ticks, m);
      }
    }
  }

  lemma FindsNow(call: Call, ids: set<NodeId>, missing: set<NodeId>, first: Time, ticks: seq<Tick>)
    requires ticks != [] && missing != {} && !IsTimeOut(ticks[0].now, first, call.timeout)
    requires HoldsUpdates(call, ids, ticks[0].packet)
    ensures FindsAt(call, ids, missing, first, ticks, 0)
  {
    SomeMissing(call, missing, ticks);
  }

  lemma FindsLater(call: Call, ids: set<NodeId>, recv: set<NodeId>, first: Time, ticks: seq<Tick>, m: nat)
    requires ticks != [] && !IsTimeOut(ticks[0].now, first, call.timeout) && !Refuses(call, ids, ticks[0].packet)
    requires FindsAt(call, ids, ids - (recv + Heard(call, ids, ticks[0].packet)), first, ticks[1..], m)
    ensures m + 1 < |ticks| && FindsAt(call, ids, ids - recv, first, ticks, m + 1)
  {
    FindsAtStep(call, ids, ids - recv, first, ticks, m);
    assert ids - recv - Heard(call, ids, ticks[0].packet) == ids - (recv + Heard(call, ids, ticks[0].packet));
    hide Heard, Refuses, IsTimeOut, InTime, Refused, AllAgree, HoldsUpdates;
  }

  // --------------------------------------------------------------------------- recorded votes

  /** The update id in the latest vote of `s` that counts, or else what was on record. */
  function LatestVote(call: Call, ticks: seq<Tick>, s: NodeId, recorded: map<NodeId, nat>): Option<nat> {
    if ticks == [] then if s in recorded then Some(recorded[s]) else None
    else
      var n := |ticks| - 1;
      if Agrees(call, ticks[n].packet, s) && ticks[n].packet.value.msg.VoteAck? then
        Some(ticks[n].packet.value.msg.updateId)
      else LatestVote(call, ticks[..n], s, recorded)
  }

  /** The record after one packet. */
  function Recording(call: Call, ids: set<NodeId>, packet: Option<Packet>, recorded: map<NodeId, nat>)
      : map<NodeId, nat>
  {
    if IsAnswer(call, ids, packet) && !Refuses(call, ids, packet) && packet.value.msg.VoteAck? then
      recorded[packet.value.nodeId := packet.value.msg.updateId]
    else recorded
  }

  lemma {:induction false} LatestVoteStep(call: Call, ids: set<NodeId>, ticks: seq<Tick>, n: nat, s: NodeId,
                                          recorded: map<NodeId, nat>)
    requires n < |ticks| && s in ids
    ensures LatestVote(call, ticks[..n + 1], s, recorded)
         == LatestVote(call, ticks[1..][..n], s, Recording(call, ids, ticks[0].packet, recorded))
  {
    var xs, ys := ticks[..n + 1], ticks[1..][..n];
    assert xs[0] == ticks[0];
    if n == 0 {
      assert xs[..0] == [];
    } else {
      assert xs[n] == ticks[n] == ys[n - 1] && xs[..n] == ticks[..n] && ys[..n - 1] == ticks[1..][..n - 1];
      LatestVoteStep(call, ids, ticks, n - 1, s, recorded);
    }
  }

  lemma VoteAckIsRecorded(c: Client, recv: set<NodeId>, fd: nat, from: NodeId, fileDesc: int, id: nat)
    requires c.Valid() && Open(c, recv) && from in c.serverIds && fileDesc >= 0
    ensures var a := OnVoteAck(c, recv, fd, from, fileDesc, id);
            && a.client.recvServerUpdateId == c.recvServerUpdateId[from := id] && a.recv == recv + {from}
            && (a.exit.Some? ==> a.recv == c.serverIds)
  {
    SubsetCardinality(recv + {from}, c.serverIds);
    hide Resend, Smallest, IsSmallest;
  }

  lemma VoteIsRecorded(call: Call, p: Progress, packet: Option<Packet>)
    requires p.client.Valid() && call.op == VOTE_OP && Open(p.client, p.recv)
    requires !Refuses(call, p.client.serverIds, packet)
    ensures var (q, exit) := Receive(call, p, packet);
            && q.client.recvServerUpdateId == Recording(call, p.client.serverIds, packet, p.client.recvServerUpdateId)
            && (p.client.recvServerUpdateId.Keys == p.recv ==> q.client.recvServerUpdateId.Keys == q.recv)
            && (exit.Some? && p.client.serverIds != {} ==> q.recv == p.client.serverIds)
  {
    hide OnVoteAck;
    if IsAnswer(call, p.client.serverIds, packet) {
      var m := packet.value.msg;
      VoteAckIsRecorded(p.client, p.recv, call.fd, packet.value.nodeId, m.fileDesc, m.updateId);
    } else if packet.Some? && packet.value.nodeId != call.me && MatchesOp(packet.value.msg, VOTE_OP) {
      ForeignVote(p.client, p.recv, call.fd, packet.value.nodeId, packet.value.msg.fileDesc, packet.value.msg.updateId);
    }
  }

  lemma ForeignVote(c: Client, recv: set<NodeId>, fd: nat, from: NodeId, fileDesc: int, id: nat)
    requires c.Valid() && Open(c, recv) && from !in c.serverIds
    ensures var a := OnVoteAck(c, recv, fd, from, fileDesc, id);
            && a.client == c && a.recv == recv && (a.exit.Some? ==> c.serverIds == {})
  {
    SubsetCardinality(recv, c.serverIds);
  }

  /** The first `n` turns complete the vote, one turn fewer does not, and the record then holds
      every server's latest vote. */
  ghost predicate VoteEnds(call: Call, c: Client, recv: set<NodeId>, first: Time, ticks: seq<Tick>, d: Client, n: nat) {
    && 0 < n <= |ticks|
    && CompletesBy(call, c.serverIds, c.serverIds - recv, first, ticks, n)
    && !CompletesBy(call, c.serverIds, c.serverIds - recv, first, ticks, n - 1)
    && d.recvServerUpdateId.Keys == c.serverIds
    && forall s | s in c.serverIds ::
         Some(d.recvServerUpdateId[s]) == LatestVote(call, ticks[..n], s, c.recvServerUpdateId)
  }

  /** The last vote missing is in the first turn. */
  lemma VoteEndsNow(call: Call, c: Client, recv: set<NodeId>, first: Time, ticks: seq<Tick>, d: Client)
    requires ticks != [] && !IsTimeOut(ticks[0].now, first, call.timeout)
    requires !Refuses(call, c.serverIds, ticks[0].packet)
    requires c.serverIds - recv != {} && recv + Heard(call, c.serverIds, ticks[0].packet) == c.serverIds
    requires d.recvServerUpdateId == Recording(call, c.serverIds, ticks[0].packet, c.recvServerUpdateId)
    requires d.recvServerUpdateId.Keys == c.serverIds
    ensures VoteEnds(call, c, recv, first, ticks, d, 1)
  {
    var ids, packet := c.serverIds, ticks[0].packet;
    NoneMissingNow(call, ids, ids - recv - Heard(call, ids, packet), first, ticks[1..]);
    CompletesByStep(call, ids, ids - recv, first, ticks, 0);
    SomeMissing(call, ids - recv, ticks);
    assert ids - recv - Heard(call, ids, packet) == {};
    forall s | s in ids
      ensures Some(d.recvServerUpdateId[s]) == LatestVote(call, ticks[..1], s, c.recvServerUpdateId)
    {
      LatestVoteStep(call, ids, ticks, 0, s, c.recvServerUpdateId);
      assert ticks[1..][..0] == [];
    }
    hide IsTimeOut, Refuses, Heard, Recording, LatestVote, Refused, AllAgree;
  }

  lemma NoneMissingNow(call: Call, ids: set<NodeId>, missing: set<NodeId>, first: Time, ticks: seq<Tick>)
    ensures missing == {} ==> CompletesBy(call, ids, missing, first, ticks, 0)
  {
  }

  /** It is in a later one. */
  lemma VoteEndsLater(call: Call, c: Client, recv: set<NodeId>, first: Time, ticks: seq<Tick>, d: Client,
                      next: Client, r: set<NodeId>, m: nat)
    requires ticks != [] && !IsTimeOut(ticks[0].now, first, call.timeout)
    requires !Refuses(call, c.serverIds, ticks[0].packet)
    requires next.serverIds == c.serverIds && r == recv + Heard(call, c.serverIds, ticks[0].packet)
    requires next.recvServerUpdateId == Recording(call, c.serverIds, ticks[0].packet, c.recvServerUpdateId)
    requires VoteEnds(call, next, r, first, ticks[1..], d, m)
    ensures VoteEnds(call, c, recv, first, ticks, d, m + 1)
  {
    var ids, packet := c.serverIds, ticks[0].packet;
    assert ids - recv - Heard(call, ids, packet) == ids - r;
    CompletesByStep(call, ids, ids - recv, first, ticks, m);
    CompletesByStep(call, ids, ids - recv, first, ticks, m - 1);
    forall s | s in ids
      ensures Some(d.recvServerUpdateId[s]) == LatestVote(call, ticks[..m + 1], s, c.recvServerUpdateId)
    {
      LatestVoteStep(call, ids, ticks, m, s, c.recvServerUpdateId);
    }
    hide IsTimeOut, Refuses, Heard, Recording, LatestVote, CompletesBy;
  }

  /** What a vote call decides on: at the turn that completes it, the latest vote of every
      server. It returns normally if the smallest of these is the number of cached updates,
      and asks to be made again if not. */
  lemma {:induction false} VoteReturns(call: Call, first: Time, p: Progress, ticks: seq<Tick>) returns (n: nat)
    requires p.client.Valid() && Deadline(ticks, first, call.timeout) && call.op == VOTE_OP && Open(p.client, p.recv)
    requires p.client.recvServerUpdateId.Keys == p.recv && p.client.serverIds != {}
    ensures var (q, ret) := Execute(call, first, p, ticks);
            ret != ErrorReturn ==> VoteEnds(call, p.client, p.recv, first, ticks, q.client, n)
    decreases |ticks|
  {
    n := 0;
    var ids, t := p.client.serverIds, ticks[0];
    ExecuteTurn(call, first, p, ticks);
    SentOrNot(call, p, t);
    var q := SendRequest(call, p, t);
    FinishByCount(q.client, call.op, q.recv);
    OpenIsPartial(p.client, p.recv);
    if !IsTimeOut(t.now, first, call.timeout) {
      PacketEnds(call, q, t.packet);
      var (next, exit) := Receive(call, q, t.packet);
      if Refuses(call, ids, t.packet) {
        RefusalKinds(call, ids, t.packet);
      } else {
        VoteIsRecorded(call, q, t.packet);
        if exit.None? {
          hide *;
          var m := VoteReturns(call, first, next, ticks[1..]);
          n := m + 1;
          if Execute(call, first, p, ticks).1 != ErrorReturn {
            VoteEndsLater(call, p.client, p.recv, first, ticks, Execute(call, first, p, ticks).0.client,
                          next.client, next.recv, m);
          }
        } else {
          n := 1;
          hide *;
          VoteEndsNow(call, p.client, p.recv, first, ticks, next.client);
        }
      }
    }
    hide *;
  }

  /** ... and which of the two it is: whether their smallest is the number of cached updates. */
  lemma VoteDecides(call: Call, first: Time, p: Progress, ticks: seq<Tick>)
    requires p.client.Valid() && Deadline(ticks, first, call.timeout) && call.op == VOTE_OP && Open(p.client, p.recv)
    requires p.client.recvServerUpdateId.Keys == p.recv && p.client.serverIds != {}
    ensures var (q, ret) := Execute(call, first, p, ticks);
            ret != ErrorReturn ==>
              (ret == NormalReturn <==> IsSmallest(q.client.recvServerUpdateId, p.client.updateId))
  {
    OpenIsPartial(p.client, p.recv);
    VoteFromPartialSet(call, first, p, ticks);
    hide Execute, IsSmallest, IsTimeOut;
  }

  // ------------------------------------------------------------------------------ collecting

  /** The turn that meets the deadline. */
  function LastTurn(first: Time, timeout: nat, ticks: seq<Tick>): (n: nat)
    requires Deadline(ticks, first, timeout)
    ensures n < |ticks| && IsTimeOut(ticks[n].now, first, timeout)
    ensures forall j | 0 <= j < n :: !IsTimeOut(ticks[j].now, first, timeout)
  {
    if IsTimeOut(ticks[0].now, first, timeout) then 0 else 1 + LastTurn(first, timeout, ticks[1..])
  }

  /** The nodes other than the client itself whose INITACK is among these turns. */
  function Ackers(me: NodeId, ticks: seq<Tick>): set<NodeId> {
    set i | 0 <= i < |ticks| && IsInitAck(me, ticks[i].packet) :: ticks[i].packet.value.nodeId
  }

  predicate IsInitAck(me: NodeId, packet: Option<Packet>) {
    packet.Some? && packet.value.nodeId != me && packet.value.msg.InitAck?
  }

  lemma AckersStep(me: NodeId, ticks: seq<Tick>, n: nat)
    requires n < |ticks|
    ensures Ackers(me, ticks[..n + 1]) ==
              FirstAcker(me, ticks[0].packet) + Ackers(me, ticks[1..][..n])
  {
    var xs, ys := ticks[..n + 1], ticks[1..][..n];
    assert xs[0] == ticks[0] && forall i | 0 <= i < n :: ys[i] == xs[i + 1];
    forall s | s in Ackers(me, ys)
      ensures s in Ackers(me, xs)
    {
      var i :| 0 <= i < |ys| && IsInitAck(me, ys[i].packet) && ys[i].packet.value.nodeId == s;
      assert IsInitAck(me, xs[i + 1].packet);
    }
    forall s | s in Ackers(me, xs)
      ensures s in FirstAcker(me, ticks[0].packet) + Ackers(me, ys)
    {
      var i :| 0 <= i < |xs| && IsInitAck(me, xs[i].packet) && xs[i].packet.value.nodeId == s;
      if i > 0 {
        assert IsInitAck(me, ys[i - 1].packet);
      }
    }
  }

  /** INIT knows the ids `known`, has read the turns `ticks`, and ends with `ids`: those it
      knew and those that answered, each of them unless enough were known when it did. */
  ghost predicate Collects(me: NodeId, numServers: nat, known: set<NodeId>, ticks: seq<Tick>, ids: set<NodeId>) {
    && known <= ids <= known + Ackers(me, ticks)
    && (forall i | 0 <= i < |ticks| :: Takes(me, numServers, known, ticks, ids, i))
    && (|ids| >= numServers <==> |known + Ackers(me, ticks)| >= numServers)
  }

  predicate Takes(me: NodeId, numServers: nat, known: set<NodeId>, ticks: seq<Tick>, ids: set<NodeId>, i: nat)
    requires i < |ticks|
  {
    IsInitAck(me, ticks[i].packet) ==>
      ticks[i].packet.value.nodeId in ids || |known + Ackers(me, ticks[..i])| >= numServers
  }

  lemma CollectsNothing(me: NodeId, numServers: nat, known: set<NodeId>)
    ensures Collects(me, numServers, known, [], known)
  {
    assert known + Ackers(me, []) == known;
  }

  function FirstAcker(me: NodeId, packet: Option<Packet>): set<NodeId> {
    if IsInitAck(me, packet) then {packet.value.nodeId} else {}
  }

  /** Enough are known at first. */
  lemma CollectsNoMore(me: NodeId, numServers: nat, known: set<NodeId>, ticks: seq<Tick>, n: nat, ids: set<NodeId>)
    requires n < |ticks| && |known| >= numServers && Collects(me, numServers, known, ticks[1..][..n], ids)
    ensures Collects(me, numServers, known, ticks[..n + 1], ids)
  {
    var xs, ys := ticks[..n + 1], ticks[1..][..n];
    AckersStep(me, ticks, n);
    hide Ackers, IsInitAck;
    assert ids <= known + Ackers(me, xs);
    SubsetCardinality(known, known + Ackers(me, xs));
    SubsetCardinality(known, ids);
    forall i | 0 <= i < |xs|
      ensures Takes(me, numServers, known, xs, ids, i)
    {
      SubsetCardinality(known, known + Ackers(me, xs[..i]));
    }
  }

  /** The first turn may add one. */
  lemma CollectsOne(me: NodeId, numServers: nat, known: set<NodeId>, ticks: seq<Tick>, n: nat, ids: set<NodeId>)
    requires n < |ticks| && |known| < numServers
    requires Collects(me, numServers, known + FirstAcker(me, ticks[0].packet), ticks[1..][..n], ids)
    ensures Collects(me, numServers, known, ticks[..n + 1], ids)
  {
    hide Ackers, IsInitAck, FirstAcker, Takes;
    var xs, ys, next := ticks[..n + 1], ticks[1..][..n], known + FirstAcker(me, ticks[0].packet);
    AckersStep(me, ticks, n);
    assert next + Ackers(me, ys) == known + Ackers(me, xs);
    forall i | 0 <= i < n + 1
      ensures Takes(me, numServers, known, xs, ids, i)
    {
      if i == 0 {
        TakesFirst(me, numServers, known, ticks, n, ids);
      } else {
        TakesLater(me, numServers, known, ticks, n, ids, i - 1);
      }
    }
  }

  lemma TakesFirst(me: NodeId, numServers: nat, known: set<NodeId>, ticks: seq<Tick>, n: nat, ids: set<NodeId>)
    requires n < |ticks| && known + FirstAcker(me, ticks[0].packet) <= ids
    ensures Takes(me, numServers, known, ticks[..n + 1], ids, 0)
  {
    hide Ackers;
    assert ticks[..n + 1][0] == ticks[0];
  }

  lemma TakesLater(me: NodeId, numServers: nat, known: set<NodeId>, ticks: seq<Tick>, n: nat, ids: set<NodeId>, i: nat)
    requires i < n < |ticks|
    requires Takes(me, numServers, known + FirstAcker(me, ticks[0].packet), ticks[1..][..n], ids, i)
    ensures Takes(me, numServers, known, ticks[..n + 1], ids, i + 1)
  {
    AckersStep(me, ticks, i);
    SameTurns(ticks, n, i);
    hide Ackers, IsInitAck, FirstAcker;
    var next := known + FirstAcker(me, ticks[0].packet);
    assert next + Ackers(me, ticks[1..][..i]) == known + Ackers(me, ticks[..i + 1]);
  }

  lemma SameTurns(ticks: seq<Tick>, n: nat, i: nat)
    requires i < n < |ticks|
    ensures ticks[..n + 1][i + 1] == ticks[1..][..n][i]
    ensures ticks[..n + 1][..i + 1] == ticks[..i + 1] && ticks[1..][..n][..i] == ticks[1..][..i]
  {
  }

  lemma InitPacket(call: Call, p: Progress, packet: Option<Packet>)
    requires p.client.Valid() && call.op == INIT_OP
    ensures var (q, exit) := Receive(call, p, packet);
            var known := p.client.serverIds;
            && exit.None? && q.client.Valid() && q.client == p.client.(serverIds := q.client.serverIds)
            && q.client.serverIds ==
                 (if |known| >= p.client.numServers then known else known + FirstAcker(call.me, packet))
  {
  }

  /** One turn of INIT. */
  lemma InitTurn(call: Call, first: Time, p: Progress, ticks: seq<Tick>)
    requires p.client.Valid() && Deadline(ticks, first, call.timeout) && call.op == INIT_OP
    ensures var known, num := p.client.serverIds, p.client.numServers;
            var (q, ret) := Execute(call, first, p, ticks);
            if IsTimeOut(ticks[0].now, first, call.timeout) then
              && LastTurn(first, call.timeout, ticks) == 0 && q.client == p.client
              && ret == (if |known| >= num then NormalReturn else ErrorReturn)
            else
              && Deadline(ticks[1..], first, call.timeout)
              && LastTurn(first, call.timeout, ticks) == LastTurn(first, call.timeout, ticks[1..]) + 1
              && exists next: Progress ::
                   && next.client.Valid() && (q, ret) == Execute(call, first, next, ticks[1..])
                   && next.client == p.client.(serverIds := next.client.serverIds)
                   && next.client.serverIds ==
                        (if |known| >= num then known else known + FirstAcker(call.me, ticks[0].packet))
  {
    hide Receive, IsTimeOut, FirstAcker;
    ExecuteTurn(call, first, p, ticks);
    SentOrNot(call, p, ticks[0]);
    var q := SendRequest(call, p, ticks[0]);
    FinishByCount(q.client, call.op, q.recv);
    if !IsTimeOut(ticks[0].now, first, call.timeout) {
      InitPacket(call, q, ticks[0].packet);
      var (next, exit) := Receive(call, q, ticks[0].packet);
      assert next.client.Valid() && Execute(call, first, p, ticks) == Execute(call, first, next, ticks[1..]);
    }
  }

  /** What the turns after the first collect, and the first. */
  lemma CollectsMore(me: NodeId, numServers: nat, known: set<NodeId>, ticks: seq<Tick>, n: nat, ids: set<NodeId>)
    requires n < |ticks|
    requires var next := if |known| >= numServers then known else known + FirstAcker(me, ticks[0].packet);
             Collects(me, numServers, next, ticks[1..][..n], ids)
    ensures Collects(me, numServers, known, ticks[..n + 1], ids)
  {
    hide *;
    if |known| >= numServers {
      CollectsNoMore(me, numServers, known, ticks, n, ids);
    } else {
      CollectsOne(me, numServers, known, ticks, n, ids);
    }
  }

  lemma CollectsMeans(me: NodeId, numServers: nat, known: set<NodeId>, ticks: seq<Tick>, ids: set<NodeId>)
    requires Collects(me, numServers, known, ticks, ids)
    ensures |ids| >= numServers <==> |known + Ackers(me, ticks)| >= numServers
  {
    hide Ackers, Takes;
  }

  /** Which ids INIT collects, exactly: from the INITACKs read before the deadline, each node
      but the client itself, unless enough were known already; and it returns normally if and
      only if enough different nodes were known or answered. */
  lemma {:induction false} InitCollects(call: Call, first: Time, p: Progress, ticks: seq<Tick>)
    requires p.client.Valid() && Deadline(ticks, first, call.timeout) && call.op == INIT_OP
    ensures var (q, ret) := Execute(call, first, p, ticks);
            var read := ticks[..LastTurn(first, call.timeout, ticks)];
            && Collects(call.me, p.client.numServers, p.client.serverIds, read, q.client.serverIds)
            && ret == (if |p.client.serverIds + Ackers(call.me, read)| >= p.client.numServers then NormalReturn
                       else ErrorReturn)
            && q.client == p.client.(serverIds := q.client.serverIds)
  {
    hide *;
    var known, num := p.client.serverIds, p.client.numServers;
    InitReturnsByCount(call, first, p, ticks);
    InitTakes(call, first, p, ticks);
    var read := ticks[..LastTurn(first, call.timeout, ticks)];
    CollectsMeans(call.me, num, known, read, Execute(call, first, p, ticks).0.client.serverIds);
  }

  lemma {:induction false} InitTakes(call: Call, first: Time, p: Progress, ticks: seq<Tick>)
    requires p.client.Valid() && Deadline(ticks, first, call.timeout) && call.op == INIT_OP
    ensures var ids := Execute(call, first, p, ticks).0.client.serverIds;
            var n := LastTurn(first, call.timeout, ticks);
            n <= |ticks| && Collects(call.me, p.client.numServers, p.client.serverIds, ticks[..n], ids)
    decreases |ticks|
  {
    hide *;
    InitTurn(call, first, p, ticks);
    var known, num := p.client.serverIds, p.client.numServers;
    if IsTimeOut(ticks[0].now, first, call.timeout) {
      CollectsNothing(call.me, num, known);
      assert ticks[..0] == [];
    } else {
      var (q, ret) := Execute(call, first, p, ticks);
      var next: Progress :| next.client.Valid() && (q, ret) == Execute(call, first, next, ticks[1..])
        && next.client == p.client.(serverIds := next.client.serverIds)
        && next.client.serverIds ==
             (if |known| >= num then known else known + FirstAcker(call.me, ticks[0].packet));
      InitTakes(call, first, next, ticks[1..]);
      CollectsMore(call.me, num, known, ticks, LastTurn(first, call.timeout, ticks[1..]), q.client.serverIds);
    }
  }

  lemma {:induction false} InitReturnsByCount(call: Call, first: Time, p: Progress, ticks: seq<Tick>)
    requires p.client.Valid() && Deadline(ticks, first, call.timeout) && call.op == INIT_OP
    ensures var (q, ret) := Execute(call, first, p, ticks);
            && q.client == p.client.(serverIds := q.client.serverIds)
            && ret == (if |q.client.serverIds| >= p.client.numServers then NormalReturn else ErrorReturn)
    decreases |ticks|
  {
    hide *;
    InitTurn(call, first, p, ticks);
    if !IsTimeOut(ticks[0].now, first, call.timeout) {
      var (q, ret) := Execute(call, first, p, ticks);
      var next: Progress :| next.client.Valid() && (q, ret) == Execute(call, first, next, ticks[1..])
        && next.client == p.client.(serverIds := next.client.serverIds);
      InitReturnsByCount(call, first, next, ticks[1..]);
    }
  }

  // -------------------------------------------------------------------- as the calls use them

  /** A phase entered with the empty set. */
  lemma FreshPhaseReturns(call: Call, c: Client, o: Oracle)
    requires c.Valid() && Deadline(o.ticks, o.first, call.timeout) && call.op != INIT_OP && call.op != VOTE_OP
    requires |c.serverIds| == c.numServers
    ensures var (q, ret) := Execute(call, o.first, Start(c, {}), o.ticks);
            && (ret == NormalReturn <==> Completes(call, c.serverIds, c.serverIds, o.first, o.ticks))
            && (ret == Again <==> FindsUpdates(call, c.serverIds, c.serverIds, o.first, o.ticks))
            && (ret == Again ==> Open(q.client, q.recv))
  {
    PhaseReturns(call, o.first, Start(c, {}), o.ticks);
    assert c.serverIds - {} == c.serverIds;
    hide Execute, Completes, FindsUpdates;
  }

  /** All there is to say about one. */
  lemma FreshPhase(call: Call, c: Client, o: Oracle)
    requires c.Valid() && Deadline(o.ticks, o.first, call.timeout) && call.op != INIT_OP && call.op != VOTE_OP
    requires |c.serverIds| == c.numServers
    ensures var (q, ret) := Execute(call, o.first, Start(c, {}), o.ticks);
            && q.client == c && (call.op != CLOSE_OP ==> ret != Again)
            && (ret == NormalReturn <==> Completes(call, c.serverIds, c.serverIds, o.first, o.ticks))
            && (ret == Again <==> FindsUpdates(call, c.serverIds, c.serverIds, o.first, o.ticks))
            && (ret == Again ==> Open(c, q.recv))
            && (ret == NormalReturn ==> forall s | s in c.serverIds :: Answered(call.op, o.ticks, s))
            && Only(q.sent, Request(call.op, call.fd, call.name)) && (Asks(o) ==> q.sent != [])
  {
    hide Execute, Completes, FindsUpdates, Answered, Asks, Only, Deadline;
    QuorumByCounting(call, o.first, Start(c, {}), o.ticks);
    PlainPhaseKeepsCache(call, o.first, Start(c, {}), o.ticks);
    FreshPhaseReturns(call, c, o);
    PlainTraffic(call, c, {}, o);
  }

  /** A second CLOSE pass does not end in an error: it completes, or finds updates. The servers
      that answered the first pass before it found some are not asked again. */
  ghost predicate SecondPassEnds(call: Call, ids: set<NodeId>, close: Oracle, again: Oracle) {
    exists n: nat :: FindsAt(call, ids, ids, close.first, close.ticks, n)
      && var missing := ids - AgreedIn(call, ids, close.ticks[..n]);
         Completes(call, ids, missing, again.first, again.ticks)
           || FindsUpdates(call, ids, missing, again.first, again.ticks)
  }

  lemma SecondPass(call: Call, c: Client, d: Client, recv: set<NodeId>, close: Oracle, again: Oracle)
    requires c.Valid() && d.Valid() && call.op == CLOSE_OP && |c.serverIds| == c.numServers
    requires Deadline(close.ticks, close.first, call.timeout) && Deadline(again.ticks, again.first, call.timeout)
    requires Execute(call, close.first, Start(c, {}), close.ticks).1 == Again
    requires recv == Execute(call, close.first, Start(c, {}), close.ticks).0.recv
    requires d.serverIds == c.serverIds && d.numServers == c.numServers
    ensures Execute(call, again.first, Start(d, recv), again.ticks).1 != ErrorReturn <==>
              SecondPassEnds(call, c.serverIds, close, again)
  {
    var ids := c.serverIds;
    FreshPhaseReturns(call, c, close);
    assert ids - {} == ids;
    var n := FoundWith(call, close.first, Start(c, {}), close.ticks);
    PhaseReturns(call, again.first, Start(d, recv), again.ticks);
    hide Execute, Completes, FindsUpdates, FindsAt, AgreedIn;
    assert recv == AgreedIn(call, ids, close.ticks[..n]);
    if SecondPassEnds(call, ids, close, again) {
      var m: nat :| FindsAt(call, ids, ids, close.first, close.ticks, m)
        && var missing := ids - AgreedIn(call, ids, close.ticks[..m]);
           Completes(call, ids, missing, again.first, again.ticks)
             || FindsUpdates(call, ids, missing, again.first, again.ticks);
      FindsOnce(call, ids, ids, close.first, close.ticks, n, m);
    }
  }

  /** What `Commit` leaves of the client, whichever way it returns. */
  lemma CommitCallIs(me: NodeId, fd: nat, c: Client, votes: seq<Oracle>, commit: Oracle, abort: Oracle)
    requires c.Valid() && CommitOracles(votes, commit, abort) && |c.serverIds| == c.numServers
    ensures var call := Call(me, VOTE_OP, fd, [], LONG_TIMEOUT);
            var (d, _, vote) := VoteLoop(call, c, {}, votes);
            var done := Completes(call.(op := COMMIT_OP), c.serverIds, c.serverIds, commit.first, commit.ticks);
            && SameButAnswers(c, d)
            && CommitCall(me, fd, c, votes, commit, abort) ==
                 if vote.None? then (d, None) else (c.Reset(), Some(vote == Some(NormalReturn) && done))
  {
    hide Execute, Completes, Deadline, VoteLoop, Answered, FindsUpdates;
    var call := Call(me, VOTE_OP, fd, [], LONG_TIMEOUT);
    VoteLoopKeepsCache(call, c, {}, votes);
    var (d, _, vote) := VoteLoop(call, c, {}, votes);
    FreshPhase(call.(op := COMMIT_OP), d, commit);
    PlainPhaseKeepsCache(call.(op := ABORT_OP), abort.first, Start(d, {}), abort.ticks);
  }

  lemma {:induction false} VoteLoopKeepsCache(call: Call, c: Client, recv: set<NodeId>, votes: seq<Oracle>)
    requires c.Valid() && (forall o | o in votes :: Deadline(o.ticks, o.first, call.timeout)) && call.op == VOTE_OP
    ensures SameButAnswers(c, VoteLoop(call, c, recv, votes).0)
    decreases |votes|
  {
    VoteLoopTurn(call, c, recv, votes);
    if votes != [] {
      var (q, ret) := Execute(call, votes[0].first, Start(c, recv), votes[0].ticks);
      VotePhaseKeepsCache(call, votes[0].first, Start(c, recv), votes[0].ticks);
      if ret == Again {
        VoteLoopKeepsCache(call, q.client, q.recv, votes[1..]);
      }
    }
    hide Execute, VoteLoop, Deadline;
  }

  lemma CommitParts(asked: seq<Message>, commits: seq<Message>, aborts: seq<Message>, fd: nat, cache: map<nat, Update>)
    requires VotesAndBlocks(asked, fd, cache) && Only(commits, Commit(fd)) && Only(aborts, Abort(fd))
    ensures CommitTraffic(asked + commits + aborts, fd, cache, |asked|, |asked| + |commits|)
  {
    var ms := asked + commits + aborts;
    assert ms[..|asked|] == asked && ms[|asked|..|asked| + |commits|] == commits && ms[|asked| + |commits|..] == aborts;
  }

  /** The parts of a Commit, one after another. */
  lemma CommitSent(voted: seq<Message>, commits: seq<Message>, aborts: seq<Message>, fd: nat, cache: map<nat, Update>,
                   vote: Option<Ret>, ok: Option<bool>, commit: Oracle, abort: Oracle)
    requires VotesAndBlocks(voted, fd, cache) && Only(commits, Commit(fd)) && Only(aborts, Abort(fd))
    requires if vote == Some(NormalReturn) then Asks(commit) ==> commits != [] else commits == []
    requires if ok == Some(false) then Asks(abort) ==> aborts != [] else aborts == []
    requires vote.None? ==> ok.None?
    ensures CommitSends(voted + commits + aborts, fd, cache, voted, vote, ok, commit, abort)
    ensures commits == [] ==> CommitSends(voted + aborts, fd, cache, voted, vote, ok, commit, abort)
    ensures aborts == [] ==> CommitSends(voted + commits, fd, cache, voted, vote, ok, commit, abort)
    ensures commits == aborts == [] ==> CommitSends(voted, fd, cache, voted, vote, ok, commit, abort)
  {
    assert commits == [] ==> voted + commits == voted;
    assert aborts == [] ==> voted + commits + aborts == voted + commits;
    CommitParts(voted, commits, aborts, fd, cache);
    hide CommitTraffic, Asks;
    assert CommitTraffic(voted + commits + aborts, fd, cache, |voted|, |voted| + |commits|);
  }

  /** ... and all there is to say about it. */
  lemma CommitDone(me: NodeId, fd: nat, c: Client, votes: seq<Oracle>, commit: Oracle, abort: Oracle, d: Client,
                   ok: Option<bool>, commits: seq<Message>, aborts: seq<Message>)
    requires c.Valid() && CommitOracles(votes, commit, abort) && |c.serverIds| == c.numServers
    requires Only(commits, Commit(fd)) && Only(aborts, Abort(fd))
    requires var call := Call(me, VOTE_OP, fd, [], LONG_TIMEOUT);
             var (asked, _, vote) := VoteLoop(call, c, {}, votes);
             var done := Completes(call.(op := COMMIT_OP), c.serverIds, c.serverIds, commit.first, commit.ticks);
             var voted := VoteSent(call, c, {}, votes);
             && ok == (if vote.None? then None else Some(vote == Some(NormalReturn) && done))
             && d == (if vote.None? then asked else c.Reset())
             && VotesAndBlocks(voted, fd, c.updateMap)
             && (votes != [] && Asks(votes[0]) ==> BeginsWith(voted, Vote(fd)))
             && (if vote == Some(NormalReturn) then Asks(commit) ==> commits != [] else commits == [])
    requires if ok == Some(false) then Asks(abort) ==> aborts != [] else aborts == []
    ensures var ms := VoteSent(Call(me, VOTE_OP, fd, [], LONG_TIMEOUT), c, {}, votes) + commits + aborts;
            CommitDoes(me, fd, c, votes, commit, abort, d, ok, ms)
    ensures CommitCall(me, fd, c, votes, commit, abort) == (d, ok)
  {
    hide VoteLoop, VoteSent, Completes, VotesAndBlocks, Only, Asks, CommitSends, Deadline;
    var call := Call(me, VOTE_OP, fd, [], LONG_TIMEOUT);
    CommitSent(VoteSent(call, c, {}, votes), commits, aborts, fd, c.updateMap, VoteLoop(call, c, {}, votes).2, ok,
               commit, abort);
    CommitCallIs(me, fd, c, votes, commit, abort);
    hide CommitCall;
  }

  /** CLOSEs alone. */
  lemma ClosesSent(closes: seq<Message>, fd: nat, cache: map<nat, Update>, voted: seq<Message>, vote: Option<Ret>,
                   committed: Option<bool>, close: Oracle, commit: Oracle, abort: Oracle, again: Oracle)
    requires Only(closes, Close(fd)) && (Asks(close) ==> closes != [])
    ensures CloseSends(closes, fd, cache, false, voted, vote, committed, close, commit, abort, again)
  {
    hide Asks, CloseTraffic, Only;
  }

  /** CLOSEs, a Commit, and CLOSEs again if it returned normally. */
  lemma CloseSent(closes: seq<Message>, inner: seq<Message>, rest: seq<Message>, fd: nat, cache: map<nat, Update>,
                  voted: seq<Message>, vote: Option<Ret>, committed: Option<bool>, close: Oracle, commit: Oracle,
                  abort: Oracle, again: Oracle)
    requires Only(closes, Close(fd)) && (Asks(close) ==> closes != [])
    requires CommitSends(inner, fd, cache, voted, vote, committed, commit, abort)
    requires if committed == Some(true) then Asks(again) ==> rest != [] else rest == []
    requires Only(rest, Close(fd)) && (vote.None? <==> committed.None?)
    ensures CloseSends(closes + inner + rest, fd, cache, true, voted, vote, committed, close, commit, abort, again)
  {
    var k, l: nat :| k == |voted| && voted <= inner && CommitTraffic(inner, fd, cache, k, l)
      && (vote.None? ==> k == |inner|) && (vote != Some(NormalReturn) ==> k == l)
      && (vote == Some(NormalReturn) && Asks(commit) ==> k < l)
      && (committed != Some(false) ==> l == |inner|) && (committed == Some(false) && Asks(abort) ==> l < |inner|);
    CloseParts(closes, inner, rest, fd, cache, k, l);
    var ms, j := closes + inner + rest, |closes|;
    assert ms[j..j + k] == inner[..k] == voted;
    hide Asks, CloseTraffic, CommitTraffic, Only;
    assert CloseTraffic(ms, fd, cache, j, j + k, j + l, j + |inner|);
  }

  lemma CloseParts(closes: seq<Message>, inner: seq<Message>, rest: seq<Message>, fd: nat, cache: map<nat, Update>,
                   k: nat, l: nat)
    requires Only(closes, Close(fd)) && CommitTraffic(inner, fd, cache, k, l) && Only(rest, Close(fd))
    requires rest == [] || l == |inner|
    ensures var j := |closes|; CloseTraffic(closes + inner + rest, fd, cache, j, j + k, j + l, j + |inner|)
  {
    var ms, j := closes + inner + rest, |closes|;
    assert ms[..j] == closes && ms[j + |inner|..] == rest;
    assert ms[j..j + k] == inner[..k] && ms[j + k..j + l] == inner[k..l] && ms[j + l..j + |inner|] == inner[l..];
  }

  lemma Joined<T>(p: seq<T>, q: seq<T>, r: seq<T>)
    ensures (p + q) + r == p + (q + r)
  {
  }

  lemma Parts<T>(p: seq<T>, q: seq<T>, r: seq<T>)
    requires p <= q <= r
    ensures r[|p|..] == q[|p|..] + r[|q|..]
  {
  }

  lemma NothingSent(fd: nat, cache: map<nat, Update>)
    ensures VotesAndBlocks([], fd, cache) && forall m :: Only([], m)
  {
  }
}
