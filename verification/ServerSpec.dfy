/** The server's handlers as functions on its state, and what they promise. */
module ServerSpec {
  import opened FileModel
  import opened Messages

  /** `fileOpen` is `fp != NULL`; `disk` holds the files below the mount point. Opens,
      flushes and closes succeed, so `backup` is NULL between handlers and is not here. */
  datatype Server = Server(
    disk: map<Name, seq<byte>>,
    fileName: Name,
    updateMap: map<nat, Update>,
    nextUpdateId: nat,
    fileOpen: bool)
  {
    /** The ids below `nextUpdateId` are all present: the replay loop's lookups succeed. */
    predicate Valid() {
      forall i | 0 <= i < nextUpdateId :: i in updateMap
    }

    /** No trace of an earlier transaction. */
    predicate Clean() {
      updateMap == map[] && nextUpdateId == 0
    }
  }

  const EMPTY_SERVER := Server(map[], [], map[], 0, false)

  /** Updates `0..n-1` in id order. */
  function UpdateList(m: map<nat, Update>, n: nat): (us: seq<Update>)
    requires forall i | 0 <= i < n :: i in m
    ensures |us| == n && forall i | 0 <= i < n :: us[i] == m[i]
  {
    seq(n, i requires 0 <= i < n => m[i])
  }

  function KeysFrom(m: map<nat, Update>, k: nat): set<nat> {
    set i | i in m.Keys && k <= i
  }

  /** Each turn of the vote scan leaves one id fewer at or above the counter. */
  lemma KeysFromDrops(m: map<nat, Update>, k: nat)
    requires k in m
    ensures |KeysFrom(m, k + 1)| == |KeysFrom(m, k)| - 1
  {
    assert KeysFrom(m, k + 1) == KeysFrom(m, k) - {k};
  }

  predicate IsFirstMissing(m: map<nat, Update>, k: nat) {
    k !in m && forall i | 0 <= i < k :: i in m
  }

  /** The scan of `procVoteMessage`, resumed at `k`. */
  function FirstMissing(m: map<nat, Update>, k: nat): (r: nat)
    requires forall i | 0 <= i < k :: i in m
    ensures k <= r && IsFirstMissing(m, r)
    decreases |KeysFrom(m, k)|
  {
    if k !in m then k else
      KeysFromDrops(m, k);
      FirstMissing(m, k + 1)
  }

  /** A scan resumed anywhere below the gap finds what a scan from zero finds. */
  lemma ResumedScanIsScanFromScratch(m: map<nat, Update>, k: nat)
    requires forall i | 0 <= i < k :: i in m
    ensures FirstMissing(m, k) == FirstMissing(m, 0)
    ensures forall r: nat :: IsFirstMissing(m, r) <==> r == FirstMissing(m, 0)
  {
    var r := FirstMissing(m, 0);
    assert IsFirstMissing(m, r) && IsFirstMissing(m, FirstMissing(m, k));
  }

  /** `fopen` of the committed file: an absent file is created empty. */
  function Opened(disk: map<Name, seq<byte>>, name: Name): (d: map<Name, seq<byte>>)
    ensures d.Keys == disk.Keys + {name}
  {
    if name in disk then disk else disk[name := []]
  }

  /** A transaction committed to one file of a disk. */
  function CommitTo(disk: map<Name, seq<byte>>, name: Name, us: seq<Update>): (d: map<Name, seq<byte>>)
    ensures d.Keys == disk.Keys + {name}
  {
    var d := Opened(disk, name);
    d[name := ApplyAll(d[name], us)]
  }

  datatype Outcome = Outcome(server: Server, reply: Option<Message>)

  /** The `switch` of `ServerInstance::execute` with the handlers it calls. */
  function ServerStep(s: Server, m: Message): (r: Outcome)
    requires s.Valid()
    ensures r.server.Valid()
  {
    match m
    case Init => Outcome(s, Some(InitAck))
    case OpenFile(_, name) => Outcome(s.(fileName := name), Some(OpenFileAck(0)))
    case WriteBlock(_, id, u) => Outcome(if id in s.updateMap then s else s.(updateMap := s.updateMap[id := u]), None)
    case Vote(_) =>
      var next := FirstMissing(s.updateMap, s.nextUpdateId);
      Outcome(s.(nextUpdateId := next), Some(VoteAck(0, next)))
    case Commit(_) =>
      var disk := CommitTo(s.disk, s.fileName, UpdateList(s.updateMap, s.nextUpdateId));
      Outcome(Server(disk, s.fileName, map[], 0, true), Some(CommitAck(0)))
    case Abort(_) => Outcome(s.(updateMap := map[], nextUpdateId := 0), Some(AbortAck(0)))
    case Close(_) =>
      if s.updateMap != map[] then Outcome(s, Some(CloseAck(1)))
      else Outcome(s.(fileOpen := false), Some(CloseAck(0)))
    case _ => Outcome(s, None)
  }

  /** A server handling a sequence of messages. */
  function ServerRun(s: Server, ms: seq<Message>): (r: Server)
    requires s.Valid()
    ensures r.Valid()
  {
    if ms == [] then s else ServerStep(ServerRun(s, ms[..|ms| - 1]), ms[|ms| - 1]).server
  }

  /** Every WRITEBLOCK in `ms` carries the client's own block for its id. */
  predicate WritesOf(ms: seq<Message>, um: map<nat, Update>) {
    forall m | m in ms :: m.WriteBlock? && m.updateId in um && m.update == um[m.updateId]
  }

  function Ids(ms: seq<Message>): set<nat> {
    set m | m in ms && m.WriteBlock? :: m.updateId
  }

  predicate Submap(a: map<nat, Update>, b: map<nat, Update>) {
    forall i | i in a :: i in b && a[i] == b[i]
  }

  /** What a server that started below the client's map holds after any deliveries. */
  lemma {:induction false} DeliveredWrites(s: Server, ms: seq<Message>, um: map<nat, Update>)
    requires s.Valid() && Submap(s.updateMap, um) && WritesOf(ms, um)
    ensures var r := ServerRun(s, ms);
            && r == s.(updateMap := r.updateMap)
            && r.updateMap.Keys == s.updateMap.Keys + Ids(ms)
            && Submap(r.updateMap, um)
  {
    if ms != [] {
      var n := |ms| - 1;
      OneMoreWrite(ms, um);
      DeliveredWrites(s, ms[..n], um);
    }
  }

  lemma OneMoreWrite(ms: seq<Message>, um: map<nat, Update>)
    requires WritesOf(ms, um) && ms != []
    ensures var m := ms[|ms| - 1];
            && WritesOf(ms[..|ms| - 1], um) && Ids(ms) == Ids(ms[..|ms| - 1]) + {m.updateId}
            && m.WriteBlock? && m.updateId in um && m.update == um[m.updateId]
  {
    var n := |ms| - 1;
    assert ms == ms[..n] + [ms[n]];
    assert forall m :: m in ms <==> m in ms[..n] || m == ms[n];
    assert ms[n] in ms;
  }

  /** Loss apart, the order and the multiplicity in which a transaction's blocks arrive
      change neither the map, nor the vote, nor the committed file. */
  lemma DeliveryOrderIsIrrelevant(s: Server, a: seq<Message>, b: seq<Message>, um: map<nat, Update>, fd: nat)
    requires s.Valid() && Submap(s.updateMap, um) && WritesOf(a, um) && WritesOf(b, um)
    requires Ids(a) == Ids(b)
    ensures ServerRun(s, a) == ServerRun(s, b)
    ensures ServerStep(ServerRun(s, a), Vote(fd)) == ServerStep(ServerRun(s, b), Vote(fd))
    ensures ServerRun(s, a + [Vote(fd), Commit(fd)]).disk == ServerRun(s, b + [Vote(fd), Commit(fd)]).disk
  {
    DeliveredWrites(s, a, um);
    DeliveredWrites(s, b, um);
    var ra, rb := ServerRun(s, a), ServerRun(s, b);
    assert ra.updateMap == rb.updateMap;
    VoteThenCommit(s, a, fd);
    VoteThenCommit(s, b, fd);
  }

  lemma VoteThenCommit(s: Server, ms: seq<Message>, fd: nat)
    requires s.Valid()
    ensures ServerRun(s, ms + [Vote(fd), Commit(fd)])
         == ServerStep(ServerStep(ServerRun(s, ms), Vote(fd)).server, Commit(fd)).server
  {
    var all := ms + [Vote(fd), Commit(fd)];
    assert all[..|all| - 1] == ms + [Vote(fd)];
    assert (ms + [Vote(fd)])[..|ms|] == ms;
  }

  /** Retransmission closes every gap: once all blocks from the server's last answer (or
      below it) up to `n` have arrived, in any order and any number of times, the next
      VOTE is answered with `n`, whatever was lost before. */
  lemma RetransmissionClosesEveryGap(s: Server, ms: seq<Message>, um: map<nat, Update>, smallest: nat, n: nat, fd: nat)
    requires s.Valid() && Submap(s.updateMap, um) && WritesOf(ms, um)
    requires forall i :: i in um <==> 0 <= i < n
    requires smallest <= s.nextUpdateId
    requires forall i | smallest <= i < n :: i in Ids(ms)
    ensures ServerStep(ServerRun(s, ms), Vote(fd)).reply == Some(VoteAck(0, n))
    ensures ServerRun(s, ms).updateMap == um
  {
    DeliveredWrites(s, ms, um);
    var r := ServerRun(s, ms);
    forall i | 0 <= i < n
      ensures i in r.updateMap
    {
      if i < smallest {
        assert i in s.updateMap;
      }
    }
    assert r.updateMap == um;
    ResumedScanIsScanFromScratch(um, r.nextUpdateId);
    assert IsFirstMissing(um, n);
  }

  /** A COMMIT leaves the last-writer-wins file and a clean server, and the other files
      of the mount alone. */
  lemma CommitApplies(s: Server, fd: nat)
    requires s.Valid()
    ensures var r := ServerStep(s, Commit(fd)).server;
            var before := if s.fileName in s.disk then s.disk[s.fileName] else [];
            && r.Clean() && r.disk.Keys == s.disk.Keys + {s.fileName}
            && LastWriterWins(before, UpdateList(s.updateMap, s.nextUpdateId), r.disk[s.fileName])
            && forall f | f in s.disk && f != s.fileName :: r.disk[f] == s.disk[f]
  {
    var before := if s.fileName in s.disk then s.disk[s.fileName] else [];
    ReplayIsLastWriterWins(before, UpdateList(s.updateMap, s.nextUpdateId));
  }

  /** `k >= 1` COMMITs in a row, with no write between them, leave what one leaves. */
  lemma {:induction false} CommitIsIdempotent(s: Server, ms: seq<Message>)
    requires s.Valid() && ms != []
    requires forall m | m in ms :: m.Commit?
    ensures ServerRun(s, ms) == ServerStep(s, Commit(0)).server
    decreases |ms|
  {
    var n := |ms| - 1;
    assert ms[n] in ms;
    if n > 0 {
      CommitIsIdempotent(s, ms[..n]);
      var r := ServerRun(s, ms[..n]);
      assert UpdateList(r.updateMap, r.nextUpdateId) == [];
      assert r.disk[r.fileName := r.disk[r.fileName]] == r.disk;
    } else {
      assert ms[..n] == [];
    }
  }

  /** No message but COMMIT changes a byte of any file, over any sequence of them: in
      particular ABORT is file-neutral. */
  lemma {:induction false} OnlyCommitChangesFiles(s: Server, ms: seq<Message>)
    requires s.Valid() && forall m | m in ms :: !m.Commit?
    ensures ServerRun(s, ms).disk == s.disk
    ensures ms != [] && ms[|ms| - 1].Abort? ==> ServerRun(s, ms).Clean()
  {
    if ms != [] {
      assert ms[|ms| - 1] in ms;
      OnlyCommitChangesFiles(s, ms[..|ms| - 1]);
    }
  }

  /** Within a transaction (writes, votes, closes) the answer to VOTE never decreases and
      no accepted block is ever replaced. */
  lemma {:induction false} AnswersNeverDecrease(s: Server, ms: seq<Message>)
    requires s.Valid() && forall m | m in ms :: !m.Commit? && !m.Abort?
    ensures s.nextUpdateId <= ServerRun(s, ms).nextUpdateId
    ensures Submap(s.updateMap, ServerRun(s, ms).updateMap)
  {
    if ms != [] {
      assert ms[|ms| - 1] in ms;
      AnswersNeverDecrease(s, ms[..|ms| - 1]);
    }
  }
}
