# replFs in Dafny: replicated writes, votes and commits

replFs keeps one file on N servers. A client numbers its writes, multicasts each once and
caches it; a VOTE phase asks every server for its first missing update and sends the
missing blocks again until all servers hold everything; a COMMIT phase makes every server
replay its updates into the file. ABORT and CLOSE use the same engine, which repeats a
request until all servers have answered or a deadline passes. All of it runs over datagrams
that may be lost or duplicated.

The project has three layers.

1. **Handlers and API calls.** `ServerClass.ServerInstance` and `ClientClass.ClientInstance`
   have the fields of the C++ objects and change them in place. Their methods are proved
   against the functions of `ServerSpec` and `ClientSpec`. The network, the clock and the
   packets that arrive are oracles (sequences of clock readings and packets), and every
   statement holds for all of them. `Phases` says, from clock readings and packets alone, what
   one call of `execute` sends, when it repeats it, which answers it counts and how it ends;
   the contracts of the API methods are stated in these terms.
2. **Bytes.** `FileModel` is the file under `fseek` and `fwrite`, with a declarative
   last-writer-wins description beside the replay. `Wire` is the datagram format.
3. **Whole runs.** `Protocol` puts the same functions (`ServerStep`, `OnPacket`, `Finish`)
   into a transition system with one client, any set of servers and a queue per direction
   and server. Its steps are: a message is lost, duplicated or overtaken; a server handles
   its next message; the client makes an API call, repeats its request, reads an answer,
   reads a packet of an unknown node, or meets its deadline. `Execution` proves that every
   call of `execute` on the oracles of layer 1 is a run of these steps, and `Calls` the same
   of whole `OpenFile`, `Commit`, `Abort` and `CloseFile` calls. `Invariant`, `Preservation`
   and `Reachability` prove the invariant over all runs, `Theorems` and `Measure` draw the
   conclusions.

The code does not meet every property it aims at. Where one fails, it is proved when:

- `Staleness` and `Unheard`: which acknowledgements of an earlier phase a call can read, by
  what is on the links and by what the client has read, if and only if;
- `Returns`: when `Abort`, `OpenFile` and `CloseFile` can return normally although a server
  has not done what was asked, if and only if;
- `Atomicity`: a failed vote never changes a file, a failed COMMIT always can, and a `Commit`
  that leaves its vote with a full set can apply less than was cached;
- `ClientSpec.VoteIsSoundIffSetNotFull`: when a vote call can be trusted, if and only if.

They build, from any run, the run that goes wrong, with the tools of `Runs` and `Spares`;
`Counterexamples` holds short concrete ones.

## Assumptions

The code does not enforce these, so they are part of the model or hypotheses of the theorems.

- **Order.** No handler uses `seqNum` or compares `fileId` with the open file. Each link is
  a queue that may lose and duplicate any message. With `fifo` false, neighbouring WRITE,
  VOTE and VOTEACK messages of one epoch may also be exchanged; nothing else is reordered.
  Of the theorems only `RepairMeasure` asks for `fifo`.
- **Requests.** A call of `execute` sends its request before it reads a packet or meets its
  deadline: `execute` zeroes `last`, so its first turn sends on any clock past 200 ms.
- **Phases and epochs.** Phases are numbered as they begin. A decision is a phase that may
  change what a server holds for the open file: a COMMIT, an ABORT with something cached, an
  OPEN of another name than the one asked for last. Epochs count the starts and ends of
  decisions and are odd during one. An OPEN that fails while no file is open leaves its
  epoch odd: only another OPEN can follow. Every message carries the number of the phase
  begun last when it was sent, and the epoch; a reply carries those of its request. No
  handler reads either: they only let the theorems say which phase an answer belongs to.
- **Clear phases.** An acknowledgement does not name its phase. When the client reads one, it
  can be to any phase of that op from which the server may still answer, and what follows
  it on the link is no older; `heard` keeps that number for every server. A server is fresh
  for an op (`FreshFrom`) if it can only answer phases after the op's latest one, and the
  op is clear if all servers are.
- **Tainted runs.** `tainted` is set when a run leaves the hypotheses of the theorems, and it
  stays set. `Assumptions` proves that the steps that set it are exactly these: an OPEN or
  ABORT decision that is not clear; a COMMIT or ABORT decision whose deadline is met with
  answers missing, and an OPEN decision if a file is open then; a vote deadline with a full
  set, because the set passed to the vote call survives its re-entries; a VOTEACK from an
  unknown node with a full set; a vote that fails while ABORT is not clear. For the first of
  these `Returns` proves that the guarantee can be lost exactly then. The theorems of
  `Theorems` and `Measure` are about runs up to the first such step, except
  `LookupsSucceed` and `LogOnlyGrows`, which hold in all runs.
- **Start.** The nodes of `Protocol` are the servers found by INIT, exactly `numServers`, with
  empty mounts. Nothing is assumed about their number.
- **Numbers.** In runs, a transaction has at most 2^32 - 1 writes: no block is written with
  `updateId` at the maximum, where `getNextNum` wraps.
- **Disks.** Opening, writing, flushing and closing a file succeed on the servers.

Where code and intention differ, the model follows the code: the commit backup is read at
the end of the file and so holds zero bytes; a CLOSE pass after the commit keeps the set of
the first pass; a second CLOSE pass that is answered with 1 still counts as success; and an
unsuccessful `Abort` empties the client's cache.

## Model

| member | source | states |
|---|---|---|
| FileModel.WriteAt | serverInstance.cpp:297-298 | one seek and write: covered bytes are the block's, the gap reads as zero, an empty block changes nothing, not even the length |
| FileModel.ReplayIsLastWriterWins | serverInstance.cpp:289-304 | after the replay every byte is that of the highest-numbered update covering it, else the old byte, else zero; the length is the largest of the old length and the ends of the non-empty blocks |
| FileModel.LastWriterWinsIsUnique | serverInstance.cpp:264-304 | that description leaves no choice: it determines the committed file |
| ServerSpec.FirstMissing | serverInstance.cpp:237-243 | the scan resumed at the counter ends at the least id the server does not hold, never below the counter |
| ServerSpec.ResumedScanIsScanFromScratch | serverInstance.cpp:231-247 | resuming at any counter whose predecessors are all present equals a scan from zero, and its result is the only first missing id |
| ServerSpec.KeysFromDrops | serverInstance.cpp:237-243 | each turn of the scan leaves one id fewer at or above the counter, so it ends |
| ServerSpec.ServerStep | serverInstance.cpp:81-112 | whatever message a server handles, the ids below its counter stay present, so the replay's lookups succeed |
| ServerSpec.DeliveredWrites | serverInstance.cpp:206-222 | any delivery sequence of a transaction's blocks adds exactly the delivered ids, each with the client's bytes, and touches nothing else |
| ServerSpec.DeliveryOrderIsIrrelevant | serverInstance.cpp:206-312 | two deliveries of the same ids, in any order and multiplicity, give the same map, the same vote answer and the same committed disk |
| ServerSpec.RetransmissionClosesEveryGap | clientInstance.cpp:325-333 | once the blocks from the smallest answer to the end have arrived in any order, the next vote is answered with the full count, whatever was lost before |
| ServerSpec.CommitApplies | serverInstance.cpp:256-312 | a commit leaves the last-writer-wins file, a clean server, and every other file as it was |
| ServerSpec.CommitIsIdempotent | serverInstance.cpp:256-312 | any positive number of COMMITs without new writes leaves the state of one |
| ServerSpec.OnlyCommitChangesFiles | serverInstance.cpp:321-364 | no sequence of other messages changes a byte of any file; an ABORT at its end leaves the server clean |
| ServerSpec.AnswersNeverDecrease | serverInstance.cpp:206-247 | within a transaction the vote answer never decreases and no accepted block is replaced |
| ServerClass.ServerInstance.constructor | serverInstance.cpp:42-48 | a server starts clean, on an empty mount, with no backup, and from then on numbers its packets modulo 2^32 |
| ServerClass.ServerInstance.Reset | serverInstance.cpp:118-128 | the map and the counter are emptied, nothing else changes |
| ServerClass.ServerInstance.ProcWriteBlock | serverInstance.cpp:206-222 | the first block of an id is kept, later ones are ignored |
| ServerClass.ServerInstance.ProcVote | serverInstance.cpp:231-247 | the scan loop moves the counter to the first missing id and answers with it |
| ServerClass.ServerInstance.Replay | serverInstance.cpp:289-304 | the loop leaves in the open file the updates below the counter applied in id order, every lookup succeeding |
| ServerClass.ServerInstance.ProcCommit | serverInstance.cpp:256-312 | creates the file if absent, replays, drops the backup and resets; one acknowledgement |
| ServerClass.ServerInstance.ProcAbort | serverInstance.cpp:321-364 | the rollback branch is dead because no handler leaves a backup; updates are dropped and no file changes |
| ServerClass.ServerInstance.ProcClose | serverInstance.cpp:373-401 | answers 1 and changes nothing while updates are held, else closes the file and answers 0 |
| ServerClass.ServerInstance.Handle | serverInstance.cpp:61-113 | a packet of its own is ignored; any other has the effect and the reply of the specified handler; kind by kind: an INIT changes nothing and is answered with one INITACK, a WRITEBLOCK only adds an absent id and is not answered, a VOTE moves the counter to the first missing id and answers with it, COMMIT and ABORT leave no update, CLOSE answers 1 exactly while updates are held, acknowledgements are ignored |
| Timer.TimeOutIsWithinAMillisecond | network.cpp:21-23 | with truncating division the test never fires late, fires less than 1 ms early, and early exactly when the microsecond field is smaller than before |
| ClientSpec.SmallestExists | clientInstance.cpp:312-318 | the minimum that starts at the largest uint32 exists for every map of answers |
| ClientSpec.QuorumByCounting | clientInstance.cpp:132-151 | outside INIT the set stays inside `serverIds`, everybody added to it answered, and a call entered with the empty set returns normally only if every server answered |
| ClientSpec.InitCollectsServers | clientInstance.cpp:222-235 | INIT never collects more than `numServers` ids and returns normally exactly with that many |
| ClientSpec.VoteIsSoundIffSetNotFull | client.c:135-144 | a vote call's normal return means agreement, on every clock and network, if and only if it was not entered with a full set left by a round that did not agree |
| ClientSpec.VoteLoopEntry | client.c:135-144 | a normal return of the first round means agreement; once a round has sent blocks again, a silent second round returns normally without agreement |
| ClientSpec.RequestsAreSpaced | clientInstance.cpp:32-64 | on a monotone clock the requests of a call are more than 199 ms apart, which bounds their number by the timeout |
| Phases.Intervals | network.h:59-61 | the three intervals in microseconds: a retry is due from 200000 on and not up to 199000, a short deadline from 4000000 on and not up to 3999000, a long one from 6000000 on and not up to 5999000 |
| Phases.SendsWhenDue | clientInstance.cpp:34-61 | a turn 200 ms or more after the last request sends it again, one 199 ms or less after it sends nothing |
| Phases.DeadlineIsKept | clientInstance.cpp:63-65 | a turn 6 s (4 s) or more after the start is the last and reads no packet; a silent one 5.999 s (3.999 s) or less after it never is |
| Phases.PlainPhaseSends | clientInstance.cpp:36-58 | a call other than VOTE sends its request, with its descriptor and name, and nothing else |
| Phases.FirstTurnAsks | clientInstance.cpp:29-61 | on a clock past 200 ms the first message of every call is its request, even if the first turn is the last |
| Phases.VotePhaseSends | clientInstance.cpp:304-334 | a vote call sends VOTEs, and exactly if it asks to be made again, behind them, in order, the cached blocks from the smallest recorded answer to the last |
| Phases.RoundsAreRequests | clientInstance.cpp:36-61 | the model's counter of rounds is the number of requests among the messages sent |
| Phases.RequestsPerCall | network.h:59-61 | on a monotone clock at most 32 of the messages of a call of 6000 ms are requests, and 22 in one of 4000 ms |
| Phases.RequestsAreRepeated | clientInstance.cpp:32-64 | a call that reads no answer, on a clock read at least every 50 ms, sends its request at least 20 times in 6 s and 13 times in 4 s |
| Phases.PhaseReturns | clientInstance.cpp:94-151 | how a call entered with a set that is not full ends, from clock and packets alone: OPEN, COMMIT, ABORT and CLOSE return normally if and only if every server still missing has given a good answer in time and no known server has refused before; CLOSE returns 1 if and only if a known server has answered 1 in time before that; a vote call returns an error if and only if a vote is missing at the deadline or a server has reported an error before |
| Phases.VoteReturns | clientInstance.cpp:288-338 | a vote call without an error ends at the first turn by which all have voted, and has then recorded every server's latest vote |
| Phases.VoteDecides | clientInstance.cpp:320-334 | ... and returns normally if and only if the smallest of these is the number of cached updates |
| Phases.InitCollects | clientInstance.cpp:222-235 | INIT takes, from the INITACKs read before the deadline, the id of every other node unless enough were known then, and no other id; it returns normally if and only if enough distinct nodes were known or answered |
| ClientClass.ClientInstance.constructor | clientInstance.cpp:10-16 | a client starts with no servers, no file and an empty cache |
| ClientClass.ClientInstance.Reset | clientInstance.cpp:172-181 | cache, counter and recorded answers are emptied, the servers kept |
| ClientClass.ClientInstance.Send | clientInstance.cpp:215-220 | packet `i` of a client carries the number `i` modulo 2^32 |
| ClientClass.ClientInstance.SendWriteBlock | clientInstance.cpp:263-279 | one block is sent, and cached only when asked for |
| ClientClass.ClientInstance.FindSmallest | clientInstance.cpp:313-318 | the loop finds the minimum of the recorded answers |
| ClientClass.ClientInstance.Retransmit | clientInstance.cpp:325-333 | exactly the cached blocks from the given id to the last are sent, in order; every lookup succeeds and the cache stays |
| ClientClass.ClientInstance.ProcVoteAck | clientInstance.cpp:288-338 | unknown nodes are ignored, an error answer is returned, a full set is checked against the minimum and answered with the missing blocks |
| ClientClass.ClientInstance.ProcPacket | clientInstance.cpp:72-137 | one packet in a phase of any op: filter, handler, and the test for a full set |
| ClientClass.ClientInstance.DoExecute | clientInstance.cpp:23-170 | the retry, timeout and quorum loop computes `Execute` on every oracle: same set, same state, same messages in the same order, same return; the rows of `Phases` say what these are |
| ClientClass.ClientInstance.InitReplFs | client.c:24-51 | sends INITs only, at least one on a clock past 200 ms; takes exactly the ids of the nodes that answer before the deadline, until enough are known; returns normally if and only if enough distinct nodes were known or answered, that is, if and only if `numServers` are known |
| ClientClass.ClientInstance.OpenFile | client.c:55-79 | past the guards it sends only OPENFILEs, at least one on a clock past 200 ms, with the name given and the next descriptor, which it uses up; it returns that descriptor if and only if every server has acknowledged in time and none has refused before; on a failed guard nothing is sent or changed |
| ClientClass.ClientInstance.WriteBlock | client.c:83-109 | accepted exactly under the guards, among them an open file; then the block is cached under the next id, the counter moves on (from 2^32 - 1 to 0) and the block is sent once, else nothing changes |
| ClientClass.ClientInstance.VoteUntilDecided | client.c:134-145 | the vote loop returns what the sequence of vote calls decides and leaves the client it leaves, changes only recorded answers, and sends what these calls send, one after another: a VOTE first, and only VOTEs and cached blocks |
| ClientClass.ClientInstance.Commit | client.c:113-161 | past the guards it sends the messages of the vote calls, then COMMITs, and then ABORTs: COMMITs exactly after a normal vote, ABORTs exactly in the calls that fail, and at least one wherever the clock is past 200 ms; it returns normally if and only if the vote did and every server acknowledged the COMMIT in time and none refused; the cache is empty after every return; on a failed guard, among them no open file, nothing is sent or changed |
| ClientClass.ClientInstance.Abort | client.c:165-196 | past the guards it sends only ABORTs, at least one on a clock past 200 ms, and the cache is emptied whatever the servers answer; it returns normally if and only if every server has acknowledged in time and none has refused before; on a failed guard nothing is sent or changed |
| ClientClass.ClientInstance.CloseFile | client.c:200-239 | past the guards it sends CLOSEs; unless a known server answers 1 nothing else, and the client's cache is not touched; else the messages of a `Commit` follow and, exactly if that returns normally, CLOSEs again, so no ABORT in a normal call; a first pass without updates returns normally if and only if all have answered, and the other way exactly if the commit did and the second pass, of those that had not answered before, ends without an error; the file counts as closed exactly on a normal return |
| Protocol.Do | clientInstance.cpp:263-279 | every step of client, server and network, in any run, keeps the cache exactly `[0, updateId)`, each server's ids below its counter present, and the set of servers fixed |
| Preservation.FreshMeansFlushed | clientInstance.cpp:183-208 | once a server can only answer phases after the latest of an op, no message of the op, request or answer, is left on its links |
| Preservation.AgreementMeansComplete | clientInstance.cpp:304-323 | the check for the smallest answer proves that a server holds exactly the client's updates and knows it |
| Preservation.VoteStartsClear | client.c:134-144 | between decisions a vote phase always starts clear |
| Reachability.CountedAckIsFresh | clientInstance.cpp:132-136 | an answer that a phase reads belongs to no phase before `heard`, in a decision, a vote or a CLOSE pass to one of the same epoch, in a clear phase to that very phase, and nothing older follows it on the link |
| Reachability.StepKeeps | clientInstance.cpp:63-140 | every enabled step of client, server or network keeps the invariant |
| Reachability.RunInv | client.c:113-239 | the invariant holds at the end of every run of any length |
| Theorems.TwoPhaseSafety | client.c:134-156 | in every reachable state of an untainted run, all disks show the whole log outside a COMMIT phase; in one, each server has applied the client's transaction and is clean, or has not and holds exactly the client's updates with a full counter |
| Theorems.NoFileChangesBeforeAllComplete | serverInstance.cpp:256-312 | a step that changes a disk is the first COMMIT at one server, while every server is complete or has applied already |
| Theorems.ReplicaAgreement | client.c:113-161 | every server's disk is the fold of the decided transactions or of all but the last; after a normal `Commit` all are the fold ending in what was cached at the call |
| Theorems.CommittedFile | serverInstance.cpp:264-304 | after a normal `Commit` the file is, byte by byte, the last-writer-wins file over its own earlier contents, on every server, and other files are unchanged |
| Theorems.CleanBoundaries | client.c:159-195 | after a normal `Commit` or `Abort` the cache and every server's map are empty with zero counters; at all times a server's map is a submap of the client's; an ABORT with nothing cached needs no assumption for this |
| Theorems.ServersKnowTheName | client.c:68-78 | while a file is open and no call runs, in particular once `OpenFile` has returned a descriptor, every server commits to the name the client last asked for |
| Theorems.LookupsSucceed | clientInstance.cpp:326-333 | in all runs, tainted or not, the ids looked up for retransmission and for replay exist; untainted, no server's counter exceeds the client's |
| Theorems.VoteSoundness | clientInstance.cpp:304-323 | under loss, duplication and reordering, recorded answer <= server counter <= client counter, so passing the check means every server is complete |
| Theorems.AcksAreFresh | clientInstance.cpp:63-140 | every request or answer of the running phase's op, on any link, belongs to no phase before `heard`, and to the phase's epoch unless the phase is an OPEN of the same name or an ABORT with nothing cached; VOTE and COMMIT phases, ABORT decisions and the second CLOSE pass are clear, and in a clear phase it belongs to that very phase |
| Theorems.ClearPhaseStartsEmpty | clientInstance.cpp:183-208 | in every reachable state of an untainted run, a server that can only answer phases after the latest of an op has no message of the op on its links |
| Theorems.SecondCloseSeesNoUpdates | client.c:231-234 | in the second CLOSE pass no server holds an update and no answer 1 is under way |
| Theorems.CloseFileCommits | client.c:220-238 | a `CloseFile` called when no server may still answer a CLOSE sent before the latest block returns normally only if no server held an update when it handled a CLOSE of the first pass, or a commit of exactly what was cached at the call is on every disk |
| Theorems.ErrorCommitsNothing | client.c:138-156 | in an untainted run a `Commit` that returns an error leaves the log and all disks as at the call; so does a `CloseFile`, unless only its second CLOSE pass failed, and then everything is committed |
| Theorems.LogOnlyGrows | client.c:147-160 | durability: in every run, tainted or not, the transactions decided earlier are the first of those decided later, so the folds at two times are comparable |
| Assumptions.AssumptionsEndExactlyWhen | clientInstance.cpp:132-151 | the flag `tainted` is set by exactly the steps listed above, read off the client's state before the step; about the flag, not about what is lost after it |
| Assumptions.RunKeepsAssumptionsIff | client.c:134-156 | a whole run is untainted if and only if none of its steps was one of those; again about the flag only |
| Measure.RepairMeasure | clientInstance.cpp:304-334 | on FIFO links, once all have voted, no step raises the sum of `updateId` minus recorded answer, and counting a higher answer lowers it by exactly the difference, including the last one, which ends the phase |
| Measure.NothingMissingIffAgreed | clientInstance.cpp:320-323 | with all answers in, the sum is zero exactly when the check passes |
| Wire.WireRoundTrip | network.h:73-478 | all thirteen kinds fit the 1024-byte buffer and decode to the packet that was encoded |
| Wire.EncodingIsInjective | network.h:73-478 | different packets have different bytes |
| Wire.BigEndian | network.h:86-95 | every number travels as four bytes, the highest first, a negative one as its complement |
| Wire.Format | network.h:44-56 | every datagram byte by byte, for all field values: the kind, 0xC0 for INIT to 0xCC for CLOSEACK, a zero, node id, sequence number, and the fields of the kind in order |
| Wire.Put | network.h:92-93 | copies the bytes to their offset and leaves the rest of the buffer |
| Wire.SerializeBody | network.h:144-296 | for every kind, the fields written one by one at their offsets after the header give the specified body |
| Wire.Serialize | network.cpp:147-150 | header and body written into a zeroed buffer of the length the caller computed give the specified encoding |
| Wire.GetString | network.h:156-156 | a name is the bytes up to the first NUL |
| Wire.Deserialize | network.h:96-105 | reading the buffer in place computes the specified decoding for every kind |
| Staleness.StaleAckIffMessageLeft | clientInstance.cpp:76-79 | after any run, tainted or not, the first phase of an OpenFile, Commit, Abort or CloseFile call can read an answer of a server to an earlier phase if and only if a message of the op, request or answer, is on that server's links at the call |
| Unheard.FreshIffNoneLeft | clientInstance.cpp:183-208 | outside votes and decisions on cached blocks, for OPEN, COMMIT, ABORT and CLOSE: every run with the same client history has no message of an earlier phase of the op left on a server's links, if and only if, going by the answers read, that server can only answer later phases |
| Unheard.StaleAckIffUnheard | client.c:165-196 | so the first phase of an `OpenFile`, `Commit`, `Abort` or `CloseFile` may read a stale answer of a server, in some run with the same client history, if and only if that server may still answer an earlier phase of the op; for `Commit` this is never so |
| Spares.SparesRun | clientInstance.cpp:76-137 | outside votes and decisions on cached blocks the client cannot tell which of several requests its answers were to: another run gives it the same history while every server still owes an answer to each phase since it was heard, one server up to any chosen phase, and that server alone holds updates, if a block was accepted since |
| Spares.QuietRun | client.c:105-106 | nor whether any block has arrived: another run gives it the same history and leaves all servers without updates and nothing under way |
| Returns.AbortIsUnsafeIff | client.c:187-195 | in an untainted run: some run with the same client history goes on to an `Abort` that returns normally while a server holds an update, if and only if something is cached and some server may still answer an earlier ABORT |
| Returns.OpenIsUnsafeIff | client.c:68-78 | in an untainted run: some run with the same client history goes on to an `OpenFile` that returns a descriptor while a server has another name, if and only if the name is not the one asked for last and some server may still answer an earlier OPEN |
| Returns.CloseFileIsUnsafeIff | client.c:220-238 | in an untainted run: some run with the same client history goes on to a `CloseFile` that returns normally, with nothing committed, although a server held an update when it handled the CLOSE, if and only if some server may still answer a CLOSE sent before the latest block |
| Atomicity.FailedVoteChangesNothing | client.c:137-141 | a `Commit` whose vote failed changes no byte of any file, whether its ABORT completes or not, until the next call |
| Atomicity.FailedCommitCanChangeFiles | client.c:152-156 | from every reached COMMIT phase, and for every server, some continuation makes the call return an error after that server has applied the transaction |
| Atomicity.UncheckedCommitAppliesLess | client.c:135-144 | from every reached VOTE phase of a `Commit` whose set is full, and for every server that knows of fewer updates than are cached, some continuation makes `Commit` return normally although that server has applied a proper prefix of them only |
| Execution.ExecuteIsARun | clientInstance.cpp:23-170 | whatever the clock and the network do, a call of `execute` outside INIT is a run of the transition system that ends with the client, the set, the return value and the way out (an answer of a known server or not) of `Execute`, from which the caller goes on |
| Calls.OpenCallIsARun | client.c:66-78 | an `OpenFile` past its guards is a run from the call's step on, ending with the client and the return of `OpenCall` |
| Calls.AbortCallIsARun | client.c:187-195 | the same for `Abort` and `AbortCall` |
| Calls.CommitCallIsARun | client.c:134-160 | the same for `Commit`: its vote rounds, its COMMIT and the ABORT after a failure are one run, ending as `CommitCall` says |
| Calls.CloseCallIsARun | client.c:220-238 | the same for `CloseFile`: both passes and the `Commit` between them are one run, ending as `CloseCall` says |
| Counterexamples.TimedOutVoteCommitsNothing | client.c:135-144 | a run in which the second vote round, its VOTE lost, meets the deadline and is taken for success, so `Commit` returns normally with the block lost |
| Counterexamples.SecondAbortCountsStaleAck | client.c:187-195 | a run in which a second ABORT, its own request lost, counts an answer to the first, and the next transaction's block loses against the aborted one |
| Counterexamples.TimedOutCommitIsNotAtomic | client.c:152-156 | a run in which `Commit` returns an error although a server applied the transaction |
| Counterexamples.SecondOpenCountsStaleAck | client.c:68-78 | a run in which a second OPEN counts an answer to the first while its own request is under way, so the server would commit to another name |
| Counterexamples.SecondCloseCountsStaleAck | client.c:220-238 | a run, untainted, in which `CloseFile` after one that timed out and a block written since counts the late answer and returns normally although the server held the block when it handled the CLOSE and nothing was committed |

## Left out

- Theorems.CloseFileCommits: asks that no server may still answer a CLOSE sent before the latest block; `Returns.CloseFileIsUnsafeIff` proves that without this the property fails.
- Theorems.ErrorCommitsNothing: stops at a COMMIT phase that times out; `Atomicity` proves that from there on the files may have changed, and that a failed vote never changes them.
- Theorems.AcksAreFresh: in a phase that is not clear (a first CLOSE pass, an OPEN of the same name, an ABORT with nothing cached) it bounds the phase an answer belongs to and does not fix it; `Unheard.StaleAckIffUnheard` tells when it is another.
- Assumptions.AssumptionsEndExactlyWhen: is about the model's flag. That a guarantee can be lost is proved for the unclear OPEN and ABORT calls (`Returns`, if and only if), the COMMIT deadline and the full vote set (`Atomicity`). After an ABORT deadline, an OPEN deadline while a file is open, and a failed vote with an unclear ABORT nothing is promised and no loss is proved.
- Unheard.FreshIffNoneLeft: not during votes and decisions on cached blocks, where an answer 1 to a CLOSE can tell the client more than its phase.
- Wire.Deserialize: gives nothing for a WRITEBLOCK with a negative offset or a size outside the buffer, which no client sends and for which the original copies outside its buffers.
- ServerClass.ServerInstance.ProcCommit: opening and flushing always succeed, so the answers -1 and the rollback that follows are not modelled; the source's rollback does not restore the file, because the backup is read at the end of the file and written back with the size of a pointer.
- ServerClass.ServerInstance.ProcAbort: its rollback branch is dead only because of that.
- ServerClass.ServerInstance.ProcClose: closing always succeeds; a second COMMIT without a CLOSE leaks a `FILE *`, which a file-is-open flag does not show.
- The wrap of `nextUpdateId` on a server, and runs in which the client's counter wraps inside a transaction: ids are unbounded naturals there, and with at most 2^32 - 1 writes they stay below the bound.
- Sockets, multicast, `select`, `recvfrom`, `gettimeofday` and the random drop: oracles and network steps instead.
- The server's endless receive loop: `Handle` is one turn of it, and runs are sequences of turns.
- Files of nodes outside `serverIds`: such nodes only appear as senders of arbitrary packets.
- Raw pointers and allocation: `Update.buffer` and `WriteBlockMessage.buffer` are byte sequences; the latter is never allocated before the copy at network.h:240.
- INIT in whole runs: `InitCollects` covers the call, and `Protocol` starts after it.
- Reordering across epochs: two messages of different epochs on one link never overtake each other, because neither `seqNum` nor `fileId` would detect it.
- Server crash and restart, and liveness under unbounded loss: the code has no recovery log.
- Printing, argument parsing, `mkdir`, the sample application, the makefiles and the test driver.
