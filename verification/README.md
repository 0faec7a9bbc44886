# A verified model of the file system stack

The repository is a distributed file system in the manner of Frangipani: clients with a write-back extent cache, a
caching lock service that keeps those caches coherent, a remote procedure call library with at-most-once calls, and a
Paxos-replicated configuration service. This project models the logic of these parts in Dafny and proves what they
promise. `dafny verify dfyconfig.toml` checks all of it.

Each part has the same shape. The state the source updates in place is a class, whose methods are proved against step
functions on values; protocols are state machines whose steps are those functions, with the network, the schedule,
crashes and the outcomes of remote calls left to an arbitrary run; the main theorems speak about every run. In these
machines `Possible` says what the code allows, and predicates such as `Orderly`, `Prompt` and `Timely` state the
hypotheses of a theorem where it has any.
Where a promise is false of the code, a lemma gives the run that breaks it and the theorem states what is needed.

| files | what they model |
|---|---|
| Basics | optional values and common properties of sequences, shared by all |
| Views, Primary | views as Paxos values, majorities, the choice of the primary |
| Text, PaxosLog, PaxosNode | stream input and output, the Paxos log as text, acceptor, replay, the proposer's loops |
| PaxosSystem, PaxosProof, PaxosAgreement, PaxosRuns | proposers and acceptors of all instances, with crashes and an unreliable network |
| LockServer, LockServerRuns | the caching lock server with retryer and revoker |
| LockClient, LockThreads | the lock cache of a client with its releaser, as a class `LockClientCache` proved against the steps that LockThreads and Coherence take; the threads of a client at one lock |
| ExtentCache | the extent cache of a client over the extent server |
| Coherence, CoherenceRuns, CoherenceFaults | clients, locks, caches and servers together |
| Rpc, RpcSystem, RpcRuns | acknowledgement window and reply window; calls from end to end |
| Marshal, MarshalBuffers, Framing | argument encoding, message buffers and headers, messages on a stream |
| Directory, FileBytes, ThrPool | directory text, file contents, the thread pool |

## What turned out

- Agreement (PaxosAgrees) covers all instances at once, each electing its view from the value before. It needs that
  proposals of one round carry one value: `prepare` keeps the value of the highest round without the tie-breaker that
  the acceptors use, and SharedRoundSplitsDecision is a run in which two nodes decide differently.
- A single acceptor that is sent arbitrary requests may lose a promise in a crash (CrashSafety says exactly when),
  because an accepted proposal raises `n_h` without a log record of its own. In the runs of the whole system this never
  happens, since accepts go only to nodes that promised that proposal; the agreement theorem includes crashes.
- Majorities of consecutive views meet even when a member is added twice, but not when it is then removed
  (DuplicateSplitsMajorities).
- The lock server breaks three promises in rare interleavings: a client told to retry can be forgotten, an owner can
  keep a lock others wait for without being asked for it, and a lock can be granted again while its owner holds it.
  PromisesExactly names the steps that break them, as a condition on the state before the step, and proves that a run
  keeps a promise throughout exactly if it has none of these steps; LockServerRuns reaches each.
- Two clients never hold one lock (MutualExclusion, ObtainedAlone), whatever happens to the extents, as long as locks
  are released by the thread that holds them and the releaser takes only free locks. lock_client_cache.h:30 describes
  the latter, but the test at lock_client_cache.cc:173 takes any lock not LOCKED. Both are needed (TwoHolders,
  UnlockedByOther).
- Coherence (ReadsAreCoherent) has more hypotheses that the source does not enforce: a flush whose call fails is
  followed by the release all the same, and removals are queued in a way that works only for extents that are cached
  and stored. HypothesesNeeded shows that each is needed: whichever is broken, in whichever way, some run with no other
  fault gives a lock holder a stale read.
- At-most-once execution holds in every run (AtMostOnce). The replies kept and their memory stay valid if handlers
  return before a request that acknowledges their call is handled as new (BuffersStayValid), and this is the exact
  condition for keeping only replies not yet acknowledged (KeepsExactly). Then a send reads the reply it was given
  exactly if it happens in time too (ReadsExactly). Neither is ensured: a server thread sends a reply after it dropped
  the mutex, so that freed memory may be read even if every call ends with its reply (LateSendReadsFreedMemory), and a
  call that ends by its deadline is acknowledged while its handler may still run (DeadlineFreesTwice). A caller may then
  take what another client's call with the same id produced (LateSendGivesWrongAnswer, DeadlineGivesWrongAnswer). As
  long as sends read some recorded reply, it is never what a call with another id did (AnswersHaveTheirId); from memory
  that holds none, such as one where a handler is still writing its reply, it may be anything (MisreadGivesAnyAnswer).
  As long as clients get replies only to calls they made, the answer for requests whose reply was dropped is not given
  (AcknowledgesCompleted).
- `unlink` of a name that is not there does not report that. It puts the directory back as it was and removes whatever
  inode its unset variable names (UnlinkMeans, RemovalDeterminate).
- Creating a name twice lists it twice, since the test for an existing entry is commented out at
  yfs_client.cc:182-191. `unlink` then drops both entries and removes the second inode, while the name meant the first
  (CreatedTwice); UnlinkRemovesExactly says when no inode is left behind.

## Model

| member | source | states |
|---|---|---|
| Text.PrintedValue | log.cc:85-127 | the value of a printed number is the number: `<<` and `>>` of unsigned numbers agree |
| Text.ReadNatBack | log.cc:17-58 | a number printed in front of a non-digit is read back by `>>`, leaving the rest of the stream |
| Text.ReadWordBack | log.cc:17-58 | a word without white space is read back by `>>`, leaving the rest of the stream |
| Views.Members | config.cc:91-101 | the loop over the stream yields the words of the value, in order |
| Views.Value | config.cc:103-112 | the loop yields the text of the view |
| Views.MembersOfValue | config.cc:91-112 | every view of non-empty, space-free names survives being written as a value and read back |
| Views.IsAMember | paxos.cc:41-47 | true exactly for the names in the list |
| Views.Majority | paxos.cc:59-71 | true exactly when more than half of the first list's positions name a node of the second |
| Views.MajoritiesMeet | paxos.cc:59-71 | two majorities of one view share a node of it |
| Views.RemoveMember | config.cc:218-226 | the new view is the old one without the member |
| Views.ConsecutiveMajoritiesMeet | config.cc:196-236 | majorities of a view and of the next share a node of both, if adding or removing changed the size by at most one |
| Views.DistinctChangesByOne | config.cc:196-236 | from a view without duplicates every addition or removal does so |
| Views.DuplicateSplitsMajorities | config.cc:196-236 | a node added twice and then removed gives consecutive views with disjoint majorities |
| Primary.Rsm.SetPrimary | rsm.cc:341-375 | keeps the primary if it is in the view, else takes the first sorted node also in the previous view; tells when an assertion fails |
| Primary.SortSorts | rsm.cc:345-375 | the sorted copy is in order and has the same numbers with the same multiplicities |
| Primary.NewPrimary | rsm.cc:345-375 | the last assertion is reached exactly when the views share no node; else the choice is the lowest common number |
| Primary.PrimaryAlongChain | rsm.cc:341-375 | along every chain of non-empty canonical views no assertion fails, and each primary is in its view and the one before: the old one, or the lowest |
| PaxosLog.PropOrder | paxos.cc:16-26 | `>` on proposals is a strict total order and `>=` its reflexive closure |
| PaxosLog.Log.LogInstance | log.cc:85-97 | appends the text of a done record |
| PaxosLog.Log.LogHigh | log.cc:99-111 | appends the text of a high record |
| PaxosLog.Log.LogProp | log.cc:113-127 | appends the text of a prop record |
| PaxosLog.Log.Dump | log.cc:60-72 | returns the lines of the file, each ended by a newline |
| PaxosLog.LogRoundTrip | log.cc:17-127 | every sequence of printable records is read back from its text exactly |
| PaxosLog.DumpRestore | log.cc:60-82 | restoring a dump leaves every log unchanged and readable |
| PaxosNode.Acceptor.constructor | paxos.cc:262-286 | the new acceptor is what replaying its log gives, the first one after committing its own view |
| PaxosNode.Acceptor.LogRead | log.cc:17-58 | the state is the replay of the records in the file; fails exactly when the text is no log |
| PaxosNode.Acceptor.PrepareReq | paxos.cc:288-322 | new state, answer and log records of a prepare request, by the three branches |
| PaxosNode.Acceptor.AcceptReq | paxos.cc:324-347 | new state, answer and log records of an accept request |
| PaxosNode.Acceptor.CommitWo | paxos.cc:366-387 | a later instance is committed and the round state reset, an older one is not |
| PaxosNode.Acceptor.DecideReq | paxos.cc:349-364 | commits the next instance, ignores decided ones |
| PaxosNode.CrashSafety | log.cc:17-58 | replay after any requests rebuilds instance, values, accepted proposal and value; the promise too exactly when the last raise of it was logged |
| PaxosNode.PrepareLoop | paxos.cc:149-199 | which nodes count as promising, which value is kept, and when the loop stops early with an old value |
| PaxosNode.AcceptLoop | paxos.cc:202-232 | exactly the nodes that answered yes count as accepting |
| PaxosNode.PickIsHighest | paxos.cc:183-190 | the kept value was reported with the highest reported round, or is the proposer's own |
| PaxosNode.PickFollowsOrder | paxos.cc:183-190 | the kept value is that of the greatest proposal, in every order of replies, exactly when the reports of its round agree |
| PaxosProof.StepDeliverPrepare | paxos.cc:288-322 | handling a prepare request keeps the invariant of the whole system |
| PaxosProof.StepDeliverAccept | paxos.cc:324-347 | so does handling an accept request |
| PaxosProof.StepDeliverDecide | paxos.cc:349-387 | so does handling a decide request |
| PaxosProof.StepEndPrepare | paxos.cc:88-147 | so does entering the accept phase with a majority of promises |
| PaxosProof.StepEndAccept | paxos.cc:88-147 | so does entering the decide phase with a majority of accepts |
| PaxosProof.StepOldInstance | paxos.cc:176-182 | so does committing the value an acceptor reports for a decided instance |
| PaxosProof.StepCrash | log.cc:17-58 | so does a restart from the log |
| PaxosAgreement.ChosenIsLocked | paxos.cc:88-232 | once a proposal is accepted by a majority, every proposal of its round or a later one carries its value |
| PaxosAgreement.PaxosAgrees | paxos.cc:88-387 | in every run no two nodes hold different values for an instance, if proposals sharing a round carry one value |
| PaxosAgreement.DecisionsLast | paxos.cc:366-387 | what a node has committed it keeps, across restarts too |
| PaxosAgreement.PaxosAgreesOverTime | paxos.cc:88-387 | commits for one instance at any two points of a run are equal |
| PaxosAgreement.RoundNotReused | paxos.cc:82-124 | a node counting its own promise does not enter the accept phase twice with one round |
| PaxosAgreement.RoundNotReusedInRuns | paxos.cc:82-124 | the same for every run, with restarts at any point and any starting round |
| PaxosAgreement.PaxosAgreesDistinct | paxos.cc:88-387 | agreement if proposers count their own promise and different nodes use different rounds |
| PaxosRuns.SharedRoundSplitsDecision | paxos.cc:176-192 | a run with two proposals of one round in which two nodes decide different values |
| PaxosRuns.AgreementNeedsRounds | paxos.cc:176-192 | the condition on rounds cannot be dropped from the agreement theorem |
| LockServer.LockServerCache.Acquire | lock_server_cache.cc:151-196 | grants to the invited client or when nobody is invited or waits; else queues the client once, and a revoke if the lock is taken |
| LockServer.LockServerCache.Release | lock_server_cache.cc:198-222 | frees the lock for its owner or the invited client and lists it for the retryer; else refuses |
| LockServer.LockServerCache.Visit | lock_server_cache.cc:87-148 | the retryer's first half: invite the first waiting client, or move on |
| LockServer.LockServerCache.Returned | lock_server_cache.cc:87-148 | its second half, after the call without the mutex |
| LockServer.LockServerCache.VisitRevokes | lock_server_cache.cc:40-84 | the revoker's first half |
| LockServer.LockServerCache.ReturnedRevoke | lock_server_cache.cc:40-84 | its second half |
| LockServer.NoLostWaiter | lock_server_cache.cc:40-222 | in every interleaving: a lock that is waited for is held, offered or listed for the retryer, waiting lists have no duplicates, free means no owner, and between two grants there is an accepted release |
| LockServer.HolderReleases | lock_server_cache.cc:151-222 | in every run in which held locks are released only by their owners, a lock is granted again only after its holder released it |
| LockServer.StepExact | lock_server_cache.cc:40-222 | a step keeps each of the three promises (call back, summon the owner, leave the lock to its holder) exactly if it is not one of the named steps |
| LockServer.PromisesExactly | lock_server_cache.cc:40-222 | in every run a promise holds at every point exactly if the run has no step that breaks it |
| LockServerRuns.ClientForgotten | lock_server_cache.cc:87-222 | a run after which a client that was told to retry is neither waiting, invited nor being called |
| LockServerRuns.FailedCallForgets | lock_server_cache.cc:87-222 | the same when the release comes first and the callback fails after it |
| LockServerRuns.HolderIntruded | lock_server_cache.cc:198-222 | a run in which an invited client releases the lock of its holder, and a third is granted it |
| LockServerRuns.WaiterStranded | lock_server_cache.cc:87-196 | a run that ends with a client waiting, the lock granted to another, and no revoke, retry or call pending |
| LockServerRuns.LateAnswerHidesRevoke | lock_server_cache.cc:40-196 | a run in which the late answer to an old revoke keeps the present owner from being asked |
| LockThreads.ObtainedInOrder | lock_client_cache.cc:47-111 | in every interleaving the threads of a client obtain the lock in the order they joined, and none is passed over |
| LockThreads.RetryNeverLost | lock_client_cache.cc:77-99 | a thread waits for a retry exactly while none has come since it asked, even if the retry overtakes the answer |
| ExtentCache.ExtentServer.Put | extent_server.cc:14-21 | stores contents and attributes as given |
| ExtentCache.ExtentServer.Get | extent_server.cc:23-32 | the contents, or not found; touches the access time |
| ExtentCache.ExtentServer.GetAttr | extent_server.cc:34-44 | the attributes, or not found |
| ExtentCache.ExtentServer.Remove | extent_server.cc:46-57 | removes, or not found |
| ExtentCache.ExtentClient.AddToQueues | extent_client.cc:138-160 | the id is in both modified lists, once, and no longer in the removed list |
| ExtentCache.ExtentClient.FetchAndCache | extent_client.cc:59-78 | both remote reads must succeed for the extent to be cached |
| ExtentCache.ExtentClient.Get | extent_client.cc:25-47 | from the cache, or fetched |
| ExtentCache.ExtentClient.GetAttr | extent_client.cc:97-116 | attributes from the cache, or fetched |
| ExtentCache.ExtentClient.Put | extent_client.cc:118-136 | caches the new contents and attributes as modified |
| ExtentCache.ExtentClient.Remove | extent_client.cc:162-185 | drops a cached extent and queues its removal; not found otherwise |
| ExtentCache.ExtentClient.Flush | extent_client.cc:187-218 | writes back or removes at the server, for every outcome of the two remote calls, and keeps the list invariants |
| ExtentCache.GetRefines | extent_client.cc:25-116 | a get means what the client has put and changes nothing, exactly when no removal of it is pending at a server that has it |
| ExtentCache.FailedGet | extent_client.cc:59-78 | a failed fetch changes nothing the client means |
| ExtentCache.PutRefines | extent_client.cc:118-160 | a put is the plain put |
| ExtentCache.RemoveRefines | extent_client.cc:162-185 | a remove is the plain remove, in effect and status, exactly for extents cached or absent |
| ExtentCache.FlushRefines | extent_client.cc:187-218 | a flush changes nothing the client means, however its calls end |
| ExtentCache.FlushCleans | extent_client.cc:187-218 | after a flush whose calls return, nothing is cached, the server has what the client meant, and a removal stays queued exactly if the server never had the extent |
| ExtentCache.FlushDeletesExactly | extent_client.cc:187-218 | a flush deletes what the server has exactly if a removal is queued here and the call gets there |
| ExtentCache.QueuedRemovalOutlives | extent_client.cc:162-218 | an extent put and removed before its first flush leaves a removal that deletes what another client stores there later |
| ExtentCache.CacheRefinesStore | extent_client.cc:25-218 | along every run of get, getattr, put, remove and flush of one client, with any remote calls failing, up to an unguarded operation, every answer is that of a plain map or the failure of a failed call |
| Coherence.StepKeeps | yfs_client.h:16-19 | every step of clients, caches, releasers, callbacks and servers keeps the coherence invariant |
| Coherence.ReadsAreCoherent | extent_client.cc:25-218 | in every run that meets the hypotheses each read by a lock holder returns what one plain map holds after the same writes and removals of all clients |
| Coherence.HolderIsOwner | lock_client_cache.cc:47-203 | if only holders release locks and the releaser takes only free ones, whatever happens to extents and flushes, a client with a thread that holds a lock is its owner at the server |
| Coherence.MutualExclusion | lock_client_cache.cc:47-203 | under the same two conditions no two clients hold one lock |
| Coherence.ObtainedAlone | lock_client_cache.cc:47-111 | under the same two conditions a thread returns from acquire only when no thread of any client holds the lock |
| Coherence.CachedByOwner | extent_client.cc:25-218 | in every run that meets all hypotheses a client that caches anything of an extent, or has a removal of it queued, owns its lock at the server |
| Coherence.CachedAlone | extent_client.cc:25-218 | in such runs no client caches an extent that another caches or whose lock another holds |
| CoherenceRuns.TwoHolders | lock_client_cache.cc:156-203 | for every state but FREE in which the releaser's own test takes a lock, a run that ends with two clients holding it |
| CoherenceRuns.UnlockedByOther | lock_client_cache.cc:128-147 | a run with a release by a thread that does not hold the lock, and no other fault, that ends with two clients holding it |
| CoherenceRuns.StaleRead | lock_client_cache.cc:156-203 | in such a run a holder's read does not return the last write |
| CoherenceFaults.HypothesesNeeded | extent_client.cc:162-218 | for every way to break a hypothesis of coherence (a lock taken when not free, or released by a thread that does not hold it, a put or remove of a flush lost or unanswered, a removal of an uncached or unflushed extent, a read of a removed one) a run with no other fault in which a lock holder misreads |
| Rpc.Rpcc.Begin | rpc/rpc.cc:208-213 | the call gets the next id and acknowledges the front of the window |
| Rpc.Rpcc.GotPdu | rpc/rpc.cc:322-356 | completes the id, and gives the reply to the caller if it waits and has none |
| Rpc.Rpcc.Leave | rpc/rpc.cc:272-296 | the call is forgotten and its id completed, with or without a reply |
| Rpc.Rpcc.Place | rpc/rpc.cc:368-375 | the id is inserted before the first greater one |
| Rpc.Rpcc.PopFronts | rpc/rpc.cc:377-381 | the front is dropped while its successor is there; the iterator's element is never popped |
| Rpc.Rpcc.UpdateXidRep | rpc/rpc.cc:359-382 | the window after completing an id |
| Rpc.AcknowledgesExactly | rpc/rpc.cc:359-382 | after completions in any order and repetition the window is sorted, and its front is k exactly when 1 to k have completed and k + 1 has not |
| Rpc.Rpcs.TrimCopy | rpc/rpc.cc:675-684 | frees the acknowledged buffers in order and clears their entries in the copy |
| Rpc.Rpcs.CheckDuplicateAndUpdate | rpc/rpc.cc:664-714 | state, buffer handed out, stored list and memory after the check; the trimmed copy is stored only for a new request |
| Rpc.Rpcs.RecordReply | rpc/rpc.cc:614-638 | the reply is recorded in the entry of its call, if the assertion holds |
| Rpc.TrimFrees | rpc/rpc.cc:675-684 | trimming a list with buffers of its own frees exactly the acknowledged ones, each once |
| Rpc.CheckKeepsSound | rpc/rpc.cc:664-714 | the stored list stays in step with allocated memory exactly when the request is new or nothing was to be trimmed |
| RpcSystem.AtMostOnce | rpc/rpc.cc:473-638 | in every run, with any loss, repetition, reordering and deadlines, no call of a client is executed twice, and the assertion of `add_reply` holds when its handler returns |
| RpcSystem.AnswersHaveTheirId | rpc/rpc.cc:322-356 | in every run whose sends all read some recorded reply, a value taken by a caller was produced for a call with its id, of this client or another |
| RpcSystem.AcknowledgesSeen | rpc/rpc.cc:208-213 | in every run a request acknowledges only ids that the client has completed or been sent a reply to |
| RpcSystem.AcknowledgesCompleted | rpc/rpc.cc:208-213 | if clients get replies only to calls they made, a request acknowledges less than its own id and than every waiting call, and only completed calls, and is never answered with the at-most-once failure |
| RpcSystem.TimelyIsSane | rpc/rpc.cc:322-356 | with replies recorded and sent in time, every send reads a recorded reply and clients get replies only to calls they made |
| RpcSystem.AnswersAreProduced | rpc/rpc.cc:189-356 | with replies recorded and sent in time, every reply taken is what the one execution of the call produced |
| RpcSystem.BuffersStayValid | rpc/rpc.cc:614-714 | in every run whose handlers return before an acknowledging request is handled as new, however late replies are sent, nothing is freed twice, each kept reply is in memory of its own as produced, no acknowledged reply is kept, and nothing else stays allocated |
| RpcSystem.KeepsExactly | rpc/rpc.cc:614-714 | in every run no acknowledged reply is kept after any step exactly if every handler returns before an acknowledging request is handled as new |
| RpcSystem.ReadsExactly | rpc/rpc.cc:543-603 | in runs with such handlers every send reads its own reply exactly if each is sent before an acknowledging request is handled as new |
| RpcSystem.RepliesSafeExactly | rpc/rpc.cc:543-638 | in every run each send reads its own reply and no acknowledged reply is kept, exactly if handlers return and replies are sent before an acknowledging request is handled as new |
| RpcSystem.PatientCallersSafeExactly | rpc/rpc.cc:543-638 | if every call ends with its reply, replies are safe exactly if each is sent before an acknowledging request is handled as new |
| RpcRuns.LateSendReadsFreedMemory | rpc/rpc.cc:565-603 | a run in which every call ends with its reply and a reply is sent from freed memory |
| RpcRuns.MisreadGivesAnyAnswer | rpc/rpc.cc:565-603 | for any value, such a run in which a caller takes it although no handler of any client produced it for a call with that id |
| RpcRuns.LateSendGivesWrongAnswer | rpc/rpc.cc:565-603 | a run in which every call ends with its reply and a caller takes what another client's call with the same id produced |
| RpcRuns.LateSendAcknowledgesWaiting | rpc/rpc.cc:322-382 | a run in which every call ends with its reply and a request acknowledges a call that still waits, after a reply to a call not yet made |
| RpcRuns.DeadlineFreesTwice | rpc/rpc.cc:664-714 | a run with a call ended by its deadline, and every reply sent in time, in which a stored entry refers to freed memory and a buffer is freed twice |
| RpcRuns.DeadlineGivesWrongAnswer | rpc/rpc.cc:664-714 | such a run in which a caller takes another client's value although its own handler has returned |
| Marshal.DecodeEncode | rpc/rpc.cc:749-945 | a value of any type is read back from wherever its encoding stands, with the position behind it |
| Marshal.DecodeCut | rpc/rpc.cc:853-945 | an encoding that lost any part of its end is noticed |
| Marshal.FailureStays | rpc/rpc.cc:853-945 | once reading has failed, no later read makes it succeed |
| Marshal.TextOutside | rpc/rpc.cc:924-945 | reading a string goes outside the buffer exactly if its length is there and, added to the position in 32 bits, wraps around |
| Marshal.OutsideExactly | rpc/rpc.cc:853-945 | some sequence of values of the source's types is read outside the buffer exactly if some word of the received bytes wraps so |
| Marshal.PutAllOrdered | rpc/marshall.h:240-254 | the pairs of a map, inserted in the order they were sent, are the map |
| MarshalBuffers.Marshall.PutByte | rpc/rpc.cc:724-734 | appends inside the grown capacity, changing no other byte |
| MarshalBuffers.Marshall.PutBytes | rpc/rpc.cc:736-747 | the grown capacity is enough for all the bytes |
| MarshalBuffers.Marshall.PackRequestHeader | rpc/marshall.h:80-94 | the header is written in front; size word and arguments keep their bytes |
| MarshalBuffers.Marshall.PackReplyHeader | rpc/marshall.h:96-107 | the same for the header of a reply |
| MarshalBuffers.Marshall.Put | rpc/rpc.cc:749-811 | appends exactly the encoding of the value, for every type |
| MarshalBuffers.Marshall.PutAll | rpc/marshall.h:206-238 | the loop over the elements of a vector or a map appends their encodings |
| MarshalBuffers.Unmarshall.GetByte | rpc/rpc.cc:852-861 | the next byte, or zero and a failure at the end |
| MarshalBuffers.Unmarshall.GetBytes | rpc/rpc.cc:934-945 | the next bytes, or a failure, with the position and length added in 32 bits |
| MarshalBuffers.Unmarshall.Get | rpc/rpc.cc:863-932 | the decoded value and the new position, for every type |
| MarshalBuffers.Unmarshall.GetMany | rpc/marshall.h:215-226 | the loop over the elements of a vector |
| MarshalBuffers.Unmarshall.GetMap | rpc/marshall.h:240-254 | the loop over the pairs of a map |
| MarshalBuffers.HeaderSizes | rpc/marshall.h:14-42 | a request header fills the space in front of the arguments, a reply header fits in it |
| MarshalBuffers.MessageRoundTrip | rpc/marshall.h:81-198 | a message yields its header and its arguments, and is then completely read |
| MarshalBuffers.MessageDamaged | rpc/rpc.cc:842-850 | a message with bytes missing or added does not pass `okdone` |
| MarshalBuffers.PrefixFree | rpc/rpc.cc:749-945 | no encoding is the beginning of another of its type |
| MarshalBuffers.StructsAreTold | paxos_protocol.h:48-134 | no Paxos argument, answer or attribute record is mistaken for another of its kind |
| Framing.Connection.Begin | rpc/connection.cc:104-118 | a live, idle connection takes the message to write |
| Framing.Connection.WritePdu | rpc/connection.cc:203-225 | the size goes in front before the first byte; the written part advances, or the connection fails |
| Framing.Connection.ReadPdu | rpc/connection.cc:227-277 | the size must be read whole and not be too big; then the data grows by what was read |
| Framing.Connection.ReadCb | rpc/connection.cc:174-201 | offers a complete message and keeps it until it is accepted; dies on a failed read |
| Framing.DeliveredInOrder | rpc/connection.cc:104-277 | in every run the messages handed on are the first of those sent, in order, once each, byte for byte |
| Framing.NothingLost | rpc/connection.cc:104-277 | on a live connection, once all bytes were read, all messages were handed on or the last is still offered |
| Directory.ILookup | yfs_client.cc:129-162 | the number of the first entry with the name, or 0 |
| Directory.Readdir | yfs_client.cc:220-245 | the entries in the text |
| Directory.Unlink | yfs_client.cc:318-369 | status, text put back, and inode removed, for every answer of the extent client and every value of the unset variables |
| Directory.N2IBack | yfs_client.cc:52-59 | a printed inode number is read back |
| Directory.TextMeansEntries | yfs_client.cc:129-369 | on the text of an entry list, listing gives the list, lookup the first match or 0, and unlink the text without all matches and the number of the last match, if any |
| Directory.UnlinkMeans | yfs_client.cc:318-369 | a listed name loses all its entries and its last inode is removed; for another name the text stays and an indeterminate inode is removed; the status is that of the put or of the removal |
| Directory.RemovalDeterminate | yfs_client.cc:52-369 | which inode unlink removes is determined by its inputs exactly if the name is listed |
| Directory.UnlinkRemovesExactly | yfs_client.cc:318-369 | the inodes of all entries that unlink drops are removed exactly if the entries of the name have one inode |
| Directory.CreatedTwice | yfs_client.cc:169-369 | after two creations of a name lookup finds the first inode, and unlink drops both entries and removes the second |
| Directory.AddedIsListed | yfs_client.cc:169-245 | a new entry is listed as itself exactly when its name is not empty and has no white space |
| Directory.WithoutMatch | yfs_client.cc:318-369 | after an unlink the name is not found and every other is found as before |
| Directory.TextFollowsEntries | yfs_client.cc:129-369 | after any creations and removals the text is that of the entry list |
| FileBytes.SetSize | yfs_client.cc:247-267 | byte by byte: the old byte below the old size, zero above it, up to the new size |
| FileBytes.Write | yfs_client.cc:270-291 | byte by byte: the data at its offset, else the old byte, zero between the old end and the offset; the size grows as needed |
| FileBytes.Read | yfs_client.cc:294-315 | the bytes from the offset on, clipped at the end of the file |
| FileBytes.ReadsAreSparse | yfs_client.cc:247-315 | after any writes and size changes a read returns for each byte the last one written and not cut off since, zero in holes |
| ThrPool.Fifo.Enq | rpc/fifo.h:56-73 | appends unless the queue is full: the step by which the pool of the theorems below queues jobs and pills |
| ThrPool.Fifo.Deq | rpc/fifo.h:75-92 | takes the first element |
| ThrPool.TakenInOrder | rpc/thr_pool.cc:6-67 | in every run the queue of a pool with workers keeps its bound, and the jobs taken and those queued are the jobs accepted, in order |
| ThrPool.ShutdownDrains | rpc/thr_pool.cc:37-50 | workers leave only after all jobs were taken, there is a pill for each that has not left, and at the end the queue is empty exactly if the pool had workers or no job |

## Left out

- Sockets, polling, accepting connections and reference counts of connections; reads and writes are arbitrary pieces.
- Time: timeouts, deadlines and heartbeats are outcomes that a run may have at any moment.
- Liveness: that a lock is granted, a value decided or a call answered in the end.
- The replicated state machine's invocation and state transfer, and `rsm_client.cc`: they have no behaviour yet.
- `config::restore` and joining with another node's log, and several undecided instances in one acceptor: requests are
  handled for the next instance or for decided ones.
- Threads inside one handler: each request handler, and each half of a background thread's round, is one step; a reply
  is looked up or recorded in one step and sent in another. The Paxos handlers of the source do not take the mutex for
  all of it.
- Widths of rounds and transaction ids: they are unbounded here and 32 bits wide in the source. Buffer sizes past 2^31
  bytes.
- Signs in front of numbers read from a stream, and sizes on the wire with the top bit set, which the source takes as
  negative.
- Writes to the log that a crash cuts in the middle.
- PaxosNode.Acceptor.LogRead: a file whose last record is cut off counts as unreadable; the source stores what it has
  read of the record and ends.
- Server instances: the check of the server's nonce and clients with nonce 0, which do without at-most-once calls. The
  reply window is not emptied when the server stops.
- RpcSystem.AnswersAreProduced: needs replies recorded and sent in time; RpcRuns shows the wrong answers otherwise.
- RpcSystem.BuffersStayValid: needs handlers that return in time; KeepsExactly has the exact condition, and
  DeadlineFreesTwice is a run without it.
- RpcSystem.AnswersHaveTheirId: needs sends that read recorded replies; MisreadGivesAnyAnswer is a run without it. What
  memory without a recorded reply holds is left arbitrary: that a handler's reply is written bit by bit, its header
  last, is not modelled, and a send reads its buffer in one step.
- RpcSystem.AcknowledgesCompleted: needs that clients get replies only to calls they made, which holds when replies are
  recorded and sent in time (TimelyIsSane) and may fail otherwise (LateSendAcknowledgesWaiting).
- Coherence.MutualExclusion: needs that locks are released by their holders and taken by the releaser only when free, as
  TwoHolders and UnlockedByOther show.
- Coherence.ReadsAreCoherent: has the hypotheses that HypothesesNeeded shows to be needed, and that extents are used by
  the thread that holds the lock.
- PaxosAgreement.PaxosAgrees: proposed values are not empty, as the source takes the empty value for none.
- Directory.Unlink: the locks it takes are not modelled.
- `fuse.cc`, `lock_demo.cc`, main programs, scripts, `lock_server.cc`, `lock_client.cc`, `handle.cc`, statistics and
  debug output: thin wrappers around what is modelled, or start-up and test code.
