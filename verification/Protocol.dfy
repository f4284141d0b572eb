/** One client, its servers and the links between them as a transition system. The
    client's reactions are `ClientSpec.OnPacket` and `Finish`, the servers' `ServerStep`;
    this module adds the links, the API calls that drive the phases, and history. */
module Protocol {
  import opened FileModel
  import opened Messages
  import opened ServerSpec
  import opened ClientSpec
  import opened Network

  /** A transaction the client decided to commit. */
  datatype Txn = Txn(name: Name, updates: seq<Update>)

  /** The disk after the given transactions, from an empty mount. */
  function DiskAfter(log: seq<Txn>): map<Name, seq<byte>> {
    if log == [] then map[]
    else
      var t := log[|log| - 1];
      CommitTo(DiskAfter(log[..|log| - 1]), t.name, t.updates)
  }

  /** A server with its two links. History: `seen` is the latest epoch of a handled
      message; `held` says that the server held an update when it handled a CLOSE in the
      first pass of the latest CloseFile call. */
  datatype Node = Node(server: Server, down: Queue, up: Queue, seen: nat, held: bool)

  datatype Returned = Nothing | Returned(call: Op, ok: bool)

  /** A phase: its op and the epoch in which it was begun. */
  datatype Phase = Phase(op: Op, epoch: nat)

  /** The client and the history of the run.
      - `phase` is the op of the running `execute`, `asked` says that this call of it has
        sent its request, `recv` is the set passed to it, `call` the API call it serves,
        `second` and `survivors` the second CLOSE pass and its set.
      - `phases` lists all phases, INIT being number 0; `begun` is the number of the latest
        and `started` maps an op to that of its latest.
      - `epoch` counts the starts and ends of decisions: phases that may change what a server
        holds for the open file. It is odd while one is under way; `decided[k]` is the op of
        the decision with epoch `2k+1`.
      - `heard` maps a server to the oldest phase from which it may still send an answer.
      - `clear`: when the running phase began, its op was clear (see `Clear`).
      - `wrote` is the number of the phase begun last when a block was last accepted.
      - `callLog`, `callTxn`, `closeSafe`: at the latest Commit, Abort or CloseFile call, the
        length of the log, what the client had cached, and whether CLOSE was safe.
      - `tainted`: the run has left the assumptions (see `Leave` and `BeginDecision`). */
  datatype Ctx = Ctx(
    client: Client, fd: nat, nextFd: nat, isFileOpen: bool,
    phase: Option<Op>, asked: bool, recv: set<NodeId>, call: Op, second: bool, survivors: set<NodeId>,
    returned: Returned,
    fifo: bool, fileName: Name, prevName: Name, log: seq<Txn>,
    begun: nat, phases: seq<Phase>, started: map<Op, nat>, heard: map<NodeId, nat>,
    epoch: nat, decided: seq<Op>, clear: bool, wrote: nat, tainted: bool,
    callLog: nat, callTxn: Txn, closeSafe: bool)

  datatype State = State(ctx: Ctx, nodes: map<NodeId, Node>)

  /** The two facts behind every unchecked `find`: in all states the client's cache is
      exactly `[0, updateId)` and each server holds `[0, nextUpdateId)`. */
  ghost predicate Sane(st: State) {
    st.ctx.client.Valid() && forall s | s in st.nodes :: st.nodes[s].server.Valid()
  }

  datatype Step =
    | Lose(s: NodeId, up: bool, i: nat)
    | Duplicate(s: NodeId, up: bool, i: nat)
    | Reorder(s: NodeId, up: bool, i: nat)
    | Deliver(s: NodeId)
    | CallOpen(name: Name)
    | CallWrite(u: Update)
    | CallCommit
    | CallAbort
    | CallClose
    | Repeat
    | Receive(s: NodeId)
    | ReceiveForeign(from: NodeId, m: Message)
    | TimeOut

  predicate IsDecision(op: Op) {
    op == OPEN_OP || op == COMMIT_OP || op == ABORT_OP
  }

  /** The first phase of this op with number `k` or later, or the number of the next phase. */
  function FirstFrom(phases: seq<Phase>, k: nat, op: Op): (r: nat)
    ensures k <= r && (k <= |phases| ==> r <= |phases|)
    ensures r < |phases| ==> phases[r].op == op
    ensures forall i | k <= i < r && i < |phases| :: phases[i].op != op
    decreases |phases| - k
  {
    if k >= |phases| || phases[k].op == op then k else FirstFrom(phases, k + 1, op)
  }

  /** The oldest phase from which `s` may still send an answer, as far as the client knows. */
  function Heard(c: Ctx, s: NodeId): nat {
    if s in c.heard then c.heard[s] else 0
  }

  /** What `s` still sends answers no phase of this op begun so far. */
  predicate FreshFrom(c: Ctx, s: NodeId, op: Op) {
    op in c.started ==> c.started[op] < Heard(c, s)
  }

  predicate Clear(c: Ctx, op: Op) {
    forall s | s in c.client.serverIds :: FreshFrom(c, s, op)
  }

  /** No CLOSE that `s` may still answer was sent before the latest block. */
  predicate CloseFresh(c: Ctx, s: NodeId) {
    c.wrote < FirstFrom(c.phases, Heard(c, s), CLOSE_OP)
  }

  predicate CloseSafe(c: Ctx) {
    forall s | s in c.client.serverIds :: CloseFresh(c, s)
  }

  ghost function CurrentTxn(c: Ctx): Txn
    requires c.client.Valid()
  {
    Txn(c.fileName, UpdateList(c.client.updateMap, c.client.updateId))
  }

  /** Phases, epochs and decided transactions are only added to. */
  predicate Onward(c: Ctx, r: Ctx) {
    r.fifo == c.fifo && c.begun <= r.begun && c.epoch <= r.epoch && c.log <= r.log
  }

  /** Only the calls themselves change their history, and only a block is a write. */
  predicate WithinCall(c: Ctx, r: Ctx) {
    && r.call == c.call && r.callLog == c.callLog && r.callTxn == c.callTxn && r.closeSafe == c.closeSafe
    && r.wrote == c.wrote
  }

  /** A phase that changes no server begins in the epoch as it is. */
  function StartPhase(c: Ctx, op: Op): (r: Ctx)
    ensures r.client == c.client && r.returned == c.returned && r.log == c.log && Onward(c, r)
    ensures r.phase == Some(op) && r.recv == {} && !r.second && r.tainted == c.tainted && WithinCall(c, r)
  {
    c.(phase := Some(op), asked := false, recv := {}, second := false, clear := Clear(c, op),
       begun := c.begun + 1, phases := c.phases + [Phase(op, c.epoch)], started := c.started[op := c.begun + 1])
  }

  function Decided(c: Ctx, op: Op): Ctx {
    c.(epoch := c.epoch + 1, decided := c.decided + [op], tainted := c.tainted || !Clear(c, op))
  }

  /** A decision opens an epoch. Unless it is clear it may count stale acks, and nothing is
      promised from then on. */
  function BeginDecision(c: Ctx, op: Op): (r: Ctx)
    ensures r.client == c.client && r.returned == c.returned && r.log == c.log && Onward(c, r)
    ensures r.phase == Some(op) && r.recv == {} && !r.second && (c.tainted ==> r.tainted) && WithinCall(c, r)
  {
    StartPhase(Decided(c, op), op)
  }

  predicate Deciding(c: Ctx) {
    c.epoch % 2 == 1
  }

  function EndDecision(c: Ctx): (r: Ctx)
    ensures r.client == c.client && r.tainted == c.tainted && Onward(c, r) && WithinCall(c, r)
  {
    c.(phase := None, recv := {}, epoch := c.epoch + 1)
  }

  /** An OPEN of the name the servers already have changes nothing, and one that fails while
      no file is open can only be repeated or replaced by another OPEN; it leaves its epoch
      open. Any other failed OPEN may leave the servers with different names. */
  function LeaveOpen(c: Ctx, ret: Ret): (r: Ctx)
    ensures r.client == c.client && Onward(c, r) && WithinCall(c, r)
    ensures c.tainted ==> r.tainted
  {
    var ok := ret == NormalReturn;
    var ends := Deciding(c) && (ok || c.isFileOpen);
    c.(phase := None, recv := {}, epoch := if ends then c.epoch + 1 else c.epoch,
       isFileOpen := c.isFileOpen || ok, returned := Returned(OPEN_OP, ok), tainted := c.tainted || (ends && !ok))
  }

  /** The vote loop of `Commit`. `checked` says that the phase was left through the check
      of the smallest answer; a timeout or a foreign ack on a full set leaves it too. */
  ghost function LeaveVote(c: Ctx, ret: Ret, checked: bool): (r: Ctx)
    requires c.client.Valid()
    ensures r.client == c.client && Onward(c, r) && WithinCall(c, r)
    ensures c.tainted || (ret == NormalReturn && !checked) ==> r.tainted
  {
    match ret
    case ErrorReturn => BeginDecision(c, ABORT_OP)
    case Again => c.(asked := false)
    case NormalReturn =>
      BeginDecision(c.(log := c.log + [CurrentTxn(c)], tainted := c.tainted || !checked), COMMIT_OP)
  }

  function LeaveCommit(c: Ctx, ret: Ret): (r: Ctx)
    ensures r.client == (if ret == NormalReturn then c.client.Reset() else c.client)
    ensures Onward(c, r) && WithinCall(c, r)
    ensures c.tainted || ret != NormalReturn ==> r.tainted
  {
    if ret != NormalReturn then BeginDecision(c.(tainted := true), ABORT_OP)
    else
      var d := EndDecision(c.(client := c.client.Reset()));
      if c.call == CLOSE_OP then StartPhase(d, CLOSE_OP).(recv := c.survivors, second := true)
      else d.(returned := Returned(COMMIT_OP, true))
  }

  /** With nothing cached, an ABORT changes nothing, whatever becomes of it. */
  function LeaveAbort(c: Ctx, ret: Ret): (r: Ctx)
    ensures r.client == c.client.Reset() && Onward(c, r) && WithinCall(c, r)
    ensures c.tainted ==> r.tainted
  {
    var ok := ret == NormalReturn;
    var d := c.(phase := None, recv := {}, client := c.client.Reset(), returned := AbortReturn(c, ok));
    if Deciding(c) then d.(epoch := c.epoch + 1, tainted := c.tainted || !ok) else d
  }

  /** A Commit that had to abort fails, whatever becomes of the ABORT. */
  function AbortReturn(c: Ctx, ok: bool): Returned {
    Returned(c.call, c.call == ABORT_OP && ok)
  }

  function LeaveClose(c: Ctx, ret: Ret): (r: Ctx)
    ensures r.client == c.client && Onward(c, r) && WithinCall(c, r)
    ensures c.tainted ==> r.tainted
  {
    if ret == Again && !c.second then StartPhase(c.(survivors := c.recv), VOTE_OP)
    else
      var ok := ret != ErrorReturn;
      c.(phase := None, recv := {}, isFileOpen := c.isFileOpen && !ok, returned := Returned(CLOSE_OP, ok))
  }

  /** `execute` returned `ret` to the function of `client.c` that called it. */
  ghost function Leave(c: Ctx, ret: Ret, checked: bool): (r: Ctx)
    requires c.client.Valid() && c.phase.Some? && c.phase.value != INIT_OP
    ensures r.client == c.client || r.client == c.client.Reset()
    ensures (c.tainted ==> r.tainted) && Onward(c, r) && WithinCall(c, r)
  {
    match c.phase.value
    case OPEN_OP => LeaveOpen(c, ret)
    case VOTE_OP => LeaveVote(c, ret, checked)
    case COMMIT_OP => LeaveCommit(c, ret)
    case ABORT_OP => LeaveAbort(c, ret)
    case CLOSE_OP => LeaveClose(c, ret)
  }

  function Multicast(nodes: map<NodeId, Node>, ms: seq<Message>, epoch: nat, phase: nat)
      : (r: map<NodeId, Node>)
    ensures r.Keys == nodes.Keys
  {
    map s | s in nodes :: nodes[s].(down := nodes[s].down + Tag(ms, epoch, phase))
  }

  /** The server at `s` handles the next message of its link. */
  ghost function DeliverTo(c: Ctx, n: Node): (r: Node)
    requires n.down != [] && n.server.Valid()
    ensures r.server.Valid()
  {
    var t := n.down[0];
    var r := ServerStep(n.server, t.msg);
    var firstPass := c.phase == Some(CLOSE_OP) && !c.second && t.msg.Close?;
    Node(r.server, n.down[1..],
         if r.reply.Some? then n.up + [Tagged(r.reply.value, t.epoch, t.phase)] else n.up,
         if t.epoch > n.seen then t.epoch else n.seen,
         n.held || (firstPass && n.server.updateMap != map[]))
  }

  function Link(n: Node, up: bool): Queue {
    if up then n.up else n.down
  }

  function WithLink(n: Node, up: bool, q: Queue): Node {
    if up then n.(up := q) else n.(down := q)
  }

  function NetworkStep(n: Node, step: Step): Node
    requires step.Lose? || step.Duplicate? || step.Reorder?
    requires if step.Reorder? then step.i + 1 < |Link(n, step.up)| else step.i < |Link(n, step.up)|
  {
    var q := Link(n, step.up);
    WithLink(n, step.up, if step.Lose? then Without(q, step.i)
                         else if step.Duplicate? then Doubled(q, step.i) else Exchanged(q, step.i))
  }

  /** An answer that is read may be one to any phase of the op from which the server may still
      send one; what follows it on the link is no older. */
  function HeardAfter(c: Ctx, from: NodeId, m: Message, op: Op): map<NodeId, nat> {
    if from in c.client.serverIds && MatchesOp(m, op) then c.heard[from := FirstFrom(c.phases, Heard(c, from), op)]
    else c.heard
  }

  /** The context after a packet was read, before the phase is left. */
  ghost function AfterPacket(c: Ctx, from: NodeId, m: Message): (d: Ctx)
    requires c.client.Valid() && c.phase.Some? && c.phase.value != INIT_OP
    ensures d.client.Valid() && d.client.serverIds == c.client.serverIds && d.client.numServers == c.client.numServers
    ensures d == c.(client := d.client, recv := d.recv, heard := d.heard)
  {
    hide OnPacket, HeardAfter;
    var a := OnPacket(c.client, c.phase.value, c.recv, c.fd, from, m);
    c.(client := a.client, recv := a.recv, heard := HeardAfter(c, from, m, c.phase.value))
  }

  /** A packet from `from` reaches the running phase. */
  ghost function React(c: Ctx, from: NodeId, m: Message): (r: (Ctx, seq<Message>))
    requires c.client.Valid() && c.phase.Some? && c.phase.value != INIT_OP
    ensures r.0.client.Valid()
    ensures r.0.client.serverIds == c.client.serverIds && r.0.client.numServers == c.client.numServers
    ensures (c.tainted ==> r.0.tainted) && Onward(c, r.0) && WithinCall(c, r.0)
  {
    var a := OnPacket(c.client, c.phase.value, c.recv, c.fd, from, m);
    var d := AfterPacket(c, from, m);
    (if a.exit.Some? then Leave(d, a.exit.value, from in c.client.serverIds) else d, a.resend)
  }

  predicate Running(c: Ctx) {
    c.phase.Some? && c.phase.value != INIT_OP
  }

  /** A call of `execute` sends its request before it reads or meets its deadline. */
  ghost predicate Enabled(st: State, step: Step) {
    var c := st.ctx;
    match step
    case Lose(s, up, i) => s in st.nodes && i < |Link(st.nodes[s], up)|
    case Duplicate(s, up, i) => s in st.nodes && i < |Link(st.nodes[s], up)|
    case Reorder(s, up, i) =>
      && s in st.nodes && !c.fifo && i + 1 < |Link(st.nodes[s], up)|
      && MayOvertake(Link(st.nodes[s], up)[i], Link(st.nodes[s], up)[i + 1])
    case Deliver(s) => s in st.nodes && st.nodes[s].down != []
    case CallOpen(name) => c.phase.None? && |name| < MAX_FILE_NAME_SIZE
    case CallWrite(u) =>
      && c.phase.None? && c.isFileOpen && u.byteOffset <= MAX_FILE_SIZE && |u.block| <= MAX_BLOCK_LENGTH
      && c.client.updateId < MAX_UINT32
    case CallCommit => c.phase.None? && c.isFileOpen
    case CallAbort => c.phase.None? && c.isFileOpen
    case CallClose => c.phase.None? && c.isFileOpen
    case Repeat => Running(c)
    case Receive(s) => Running(c) && c.asked && s in st.nodes && st.nodes[s].up != []
    case ReceiveForeign(from, _) => Running(c) && c.asked && from !in c.client.serverIds
    case TimeOut => Running(c) && c.asked
  }

  /** With the name the client has asked for before, no server has anything to change that
      the earlier OPEN did not ask of it. */
  function CallOpenCtx(c: Ctx, name: Name): (r: Ctx)
    ensures r.client == c.client && Onward(c, r) && (c.tainted ==> r.tainted)
  {
    var d := c.(returned := Nothing, call := OPEN_OP, fd := c.nextFd, nextFd := GetNextNum(c.nextFd));
    if name == c.fileName then StartPhase(d, OPEN_OP)
    else BeginDecision(d.(prevName := c.fileName, fileName := name), OPEN_OP)
  }

  /** `WriteBlock`: cache the block under the next id, then count it. */
  function CallWriteCtx(c: Ctx, u: Update): (r: Ctx)
    ensures r.client.serverIds == c.client.serverIds && r.client.numServers == c.client.numServers
    ensures Onward(c, r) && r.tainted == c.tainted
    ensures c.client.Valid() && c.client.updateId < MAX_UINT32 ==> r.client.Valid()
  {
    var id := c.client.updateId;
    c.(returned := Nothing, wrote := c.begun,
       client := c.client.(updateMap := c.client.updateMap[id := u], updateId := GetNextNum(id)))
  }

  /** The history of a call is set before its first phase begins. */
  ghost function Called(c: Ctx, call: Op): Ctx
    requires c.client.Valid()
  {
    c.(returned := Nothing, call := call, callLog := |c.log|, callTxn := CurrentTxn(c), closeSafe := CloseSafe(c))
  }

  /** `Commit`, `Abort` and `CloseFile`: the first phase of each. */
  ghost function CallCtx(c: Ctx, call: Op): (r: Ctx)
    requires c.client.Valid()
    ensures r.client == c.client && Onward(c, r) && (c.tainted ==> r.tainted)
  {
    if call == ABORT_OP && c.client.updateId != 0 then BeginDecision(Called(c, call), ABORT_OP)
    else StartPhase(Called(c, call), if call == COMMIT_OP then VOTE_OP else call)
  }

  function Unheld(nodes: map<NodeId, Node>): (r: map<NodeId, Node>)
    ensures r.Keys == nodes.Keys
  {
    map s | s in nodes :: nodes[s].(held := false)
  }

  /** What no step of any run undoes. */
  predicate Continues(st: State, r: State) {
    && r.nodes.Keys == st.nodes.Keys && Onward(st.ctx, r.ctx)
    && r.ctx.client.serverIds == st.ctx.client.serverIds && r.ctx.client.numServers == st.ctx.client.numServers
  }

  /** The functions of `client.h`, up to the `execute` they call. */
  ghost function DoCall(st: State, step: Step): (r: State)
    requires Sane(st) && Enabled(st, step)
    requires step.CallOpen? || step.CallWrite? || step.CallCommit? || step.CallAbort? || step.CallClose?
    ensures Sane(r) && Continues(st, r) && (st.ctx.tainted ==> r.ctx.tainted)
  {
    var c, nodes := st.ctx, st.nodes;
    match step
    case CallOpen(name) => State(CallOpenCtx(c, name), nodes)
    case CallWrite(u) =>
      var block := WriteBlock(c.fd, c.client.updateId, u);
      State(CallWriteCtx(c, u), Multicast(nodes, [block], c.epoch, c.begun))
    case CallCommit => State(CallCtx(c, COMMIT_OP), nodes)
    case CallAbort => State(CallCtx(c, ABORT_OP), nodes)
    case CallClose => State(CallCtx(c, CLOSE_OP), Unheld(nodes))
  }

  /** What the running `execute` does. */
  ghost function DoPhase(st: State, step: Step): (r: State)
    requires Sane(st) && Enabled(st, step)
    requires step.Repeat? || step.Receive? || step.ReceiveForeign? || step.TimeOut?
    ensures Sane(r) && Continues(st, r) && (st.ctx.tainted ==> r.ctx.tainted) && WithinCall(st.ctx, r.ctx)
  {
    var c, nodes := st.ctx, st.nodes;
    match step
    case Repeat =>
      var request := Request(c.phase.value, c.fd, c.fileName);
      State(c.(asked := true), Multicast(nodes, [request], c.epoch, c.begun))
    case Receive(s) =>
      var n := nodes[s];
      var (d, resend) := React(c, s, n.up[0].msg);
      State(d, Multicast(nodes[s := n.(up := n.up[1..])], resend, c.epoch, c.begun))
    case ReceiveForeign(from, m) =>
      var (d, resend) := React(c, from, m);
      State(d, Multicast(nodes, resend, c.epoch, c.begun))
    case TimeOut => State(Leave(c, Finish(c.client, c.phase.value, c.recv), false), nodes)
  }

  ghost function Do(st: State, step: Step): (r: State)
    requires Sane(st) && Enabled(st, step)
    ensures Sane(r) && Continues(st, r) && (st.ctx.tainted ==> r.ctx.tainted)
  {
    if step.Lose? || step.Duplicate? || step.Reorder? then
      st.(nodes := st.nodes[step.s := NetworkStep(st.nodes[step.s], step)])
    else if step.Deliver? then
      st.(nodes := st.nodes[step.s := DeliverTo(st.ctx, st.nodes[step.s])])
    else if step.Repeat? || step.Receive? || step.ReceiveForeign? || step.TimeOut? then
      DoPhase(st, step)
    else
      DoCall(st, step)
  }

  /** After INIT: the servers known, nothing written, no message under way. */
  function Initial(ids: set<NodeId>, fifo: bool): State {
    var client := Client(|ids|, ids, map[], 0, map[]);
    State(Ctx(client, 0, 0, false, None, false, {}, INIT_OP, false, {}, Nothing,
              fifo, [], [], [], 0, [Phase(INIT_OP, 0)], map[INIT_OP := 0], map s | s in ids :: 0,
              0, [], false, 0, false, 0, Txn([], []), false),
          map s | s in ids :: Node(EMPTY_SERVER, [], [], 0, false))
  }

  /** The state after a sequence of steps, if each was possible. */
  ghost function RunFrom(st: State, steps: seq<Step>): (r: Option<State>)
    requires Sane(st)
    ensures r.Some? ==> Sane(r.value)
  {
    if steps == [] then Some(st)
    else
      var n := |steps| - 1;
      var before := RunFrom(st, steps[..n]);
      if before.Some? && Enabled(before.value, steps[n]) then Some(Do(before.value, steps[n])) else None
  }

  ghost function Run(ids: set<NodeId>, fifo: bool, steps: seq<Step>): (r: Option<State>)
    ensures r.Some? ==> Sane(r.value)
  {
    RunFrom(Initial(ids, fifo), steps)
  }
}
