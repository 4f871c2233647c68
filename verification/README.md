# CowpybaraMQ: a verified model of its log, replication, election and delivery

CowpybaraMQ is a small log broker. Producers append JSON payloads to topic partitions, each an append-only
line file; a leader streams its log to followers; consumers read history and then a live queue, alone or in groups.
This project models the state machines behind that and proves what they keep over every run.

How the parts fit together:

- **Partition log.** `Json`, `JsonProofs`, `Pieces` and `Decimal` are a concrete JSON codec with round trip, one-line
  framing, and the fact that no torn object text and no pieces of objects glued together parse. `Library` lists what the
  rest assumes of JSON, CRC32 and gzip and proves that the concrete codec has it. `LogText` is the two readers of a file,
  `Corruption` which lines they skip, `LogSpec` the abstract log, `PartitionLog` the `Partition` class between them,
  `Counting` the documented way to find the next offset, `Crash` the file cut at an arbitrary byte, and `Rows` the files
  that any number of cuts and appends leave.
- **Store.** `Keys` (the `topic-id` names), `StorageSpec` and the `Storage` class: routing, restart, totals, and
  `Compression`.
- **Replication.** `ReplicationSpec` (the leader's tables and messages), `ReplicationProtocol` (one leader tenure where
  publish and registration are single steps, which is asyncio without back-pressure), `ReplicationProgress`,
  `ReplicationLeftovers` and `ReplicationStale` (when acks=all gets through, and what stops it), `ReplicationInterleaved`,
  `ReplicationCompleteness` and `ReplicationUninterrupted` (every `await` a switch point, and how single steps sit in
  that), `FollowerCrash` (one file of a follower that crashes in the middle of appends), `TornReplication` and `TornPoll`
  (the protocol with such files), the `ReplicationManager` class in `Replication`, and the `Tenure` class, which runs such
  managers on their stores and connections beside a state of the protocol and proves of each method that it takes the
  protocol's step.
- **Cluster.** `Cluster` (one broker's heartbeat and election code), `ClusterProtocol` (all brokers in a stable window),
  `ClusterFollowing` (whom they follow) and `ClusterProgress` (that they can converge).
- **Delivery.** `GroupSpec` and `Groups` (membership and round-robin assignment), `BrokerSpec` and `Broker` (queues,
  publish, subscribe), `Subscription` (what a standalone consumer gets) and `Resumption` (the same over reconnects), the
  `Listeners` and `Readers` classes, which run a broker beside a state of these two as `Tenure` does for replication,
  `Offsets`, `Lag` and `Commits` (committed offsets over the store and the offset table).

Methods are proved against the specification functions of the `...Spec` modules, which the theorems are about; `Tenure`,
`Listeners` and `Readers` carry the theorems about runs of the protocol, of subscriptions and of resumption over to the
objects, and `Lag` computes on the values that the store's and the offset table's contracts name. `ClusterProtocol`, the
interleaved protocol and the one with torn files are state machines of their own.
A run is a sequence of steps, each enabled where it is taken. Several claims one would like to make are false of the
code; there the model keeps the code, shows the input or the run, and proves exactly when the claim holds:

- A torn last line swallows the next append. Resuming after a crash loses nothing exactly when the surviving file is
  empty or ends in a newline (`Crash.LosslessExactlyWhenClean`).
- So a follower that crashed inside an append can acknowledge a record it does not hold
  (`FollowerCrash.TornIsAcknowledged`), and one whose writes had not reached the disk can lose what it acknowledged
  (`FollowerCrash.CutOffIsAcknowledged`). Its file gives all that it acknowledged or announced, at every moment, exactly
  when every step was safe (`FollowerCrash.ClaimedIsHeldExactly`): no acknowledgement of a record appended to a file that
  did not end in a newline, no announcement after such an append, no such append that spoils a claimed record lacking only
  its newline, and no crash that cuts off a claimed record.
- In a whole tenure a poll of acks=all can therefore succeed for a record that no follower holds
  (`TornPoll.PollSucceedsOnTorn`). All followers hold what they claim exactly when every event was safe for every file
  (`TornReplication.TornExactly`), and then acks=all is true of the files (`TornReplication.TornAcksAll`).
- The repository's `README.md` says that corrupted writes are skipped on replay. A line that parses, has both fields and
  no wrong checksum, but whose offset is not a number, is not skipped: start-up raises (`LogText.NonNumericOffsetStops`),
  and on arbitrary files it raises exactly then (`LogText.RecoveryAgreesWithReading`).
- `docs/storage.md` says that the next offset comes from counting lines; the code takes the highest offset plus one. After
  a torn append the count is too high (`Counting.CountingOvershoots`). On arbitrary contents the two agree exactly when as
  many offsets are missing as there are junk lines and records that repeat an offset or have a negative one
  (`Counting.CountingExactly`); in a file of nothing but records with increasing offsets, exactly when the offsets are
  0, 1, 2, ... (`Counting.CountingRecords`).
- A payload that is itself a compression envelope, stored uncompressed, comes back unwrapped
  (`Compression.EnvelopeIsUnwrapped`); `Compression.CompressionInvisible` gives the result in every case.
- When `drain` suspends, a live message can overtake the catch-up; the follower then lacks a record that acks=all
  reported as replicated (`ReplicationCompleteness.AcksAllFailsWhenOvertaken`); `AcksAllExactly` gives the condition.
- A late acknowledgement from a closed connection can make acks=all time out for a record every follower holds
  (`ReplicationStale.StaleAckBlocks`). A connected follower that is level with its table is sure to be accepted after
  every drained run exactly when no unread request of an older connection of its is left
  (`ReplicationLeftovers.AcksExactlyWithoutLeftovers`).
- With acks=all, standalone consumers can see records out of order (`Subscription.WaitingReorders`) or twice
  (`Subscription.WaitingRepeats`); `Subscription.InOrderExactly` says when not.
- A record published while a consumer's history replay is suspended in a drain can be lost to it for good
  (`Resumption.ReplayLosesPublish`), though not if the session ends before a later commit
  (`Resumption.ReplayPublishRecovered`). A run leaves no gap exactly when each of its commits is of the record at the
  stored offset (`Resumption.ResumesExactly`).

## Model

| member | source | states |
|---|---|---|
| Keys.KeyRoundTrip | internal/replication.py:58-62 | splitting `topic-id` at the last dash recovers the pair, for every topic string and id |
| Keys.SplitsExactly | internal/storage.py:29-33 | a key is split into a topic and an id if and only if it is the topic, a dash, and one or more digits of that value; nothing else is split |
| Keys.DiscoversExactly | internal/storage.py:28-33 | a directory entry is taken for a partition's file if and only if its name is the topic, a dash, one or more digits of its id, and `.jsonl`, with no path separator |
| Keys.KeyInjective | internal/partition.py:17 | keys and file names of different partitions differ |
| Keys.FileNameRoundTrip | internal/storage.py:28-33 | a file name is discovered as its own partition exactly when the topic has no path separator |
| Keys.KeyRebuilt | internal/storage.py:29-33 | a split key rebuilds to itself exactly when its number is written without leading zeros |
| JsonProofs.PrintParse | internal/partition.py:35 | loading a dumped value gives the value back |
| JsonProofs.TornObjectFails | internal/partition.py:66-71 | no strict prefix of an object's text parses |
| JsonProofs.GluedPiecesFail | internal/partition.py:66-71 | two or more beginnings of objects on one line, torn or whole, all but the first of records, do not parse |
| Library.ConcreteJsonIsGood | internal/partition.py:94-103 | the assumptions on JSON hold of the concrete codec, for every checksum and invertible compressor |
| LogText.RecoveryAgreesWithReading | internal/partition.py:28-71 | on arbitrary file contents the scan raises exactly when a readable record has a non-numeric offset; otherwise its result is the least bound strictly above every offset that is read |
| LogText.NonNumericOffsetStops | internal/partition.py:28-71 | one line with a non-numeric offset, between any others, is read as a record and makes the scan raise |
| LogText.CleanConcat | internal/partition.py:117-162 | text after a clean end adds its records to those before it, junk lines included |
| LogText.AppendRecord | internal/partition.py:99-103 | writing a record to a cleanly ending file adds exactly that record to what is read |
| Corruption.ChecksumDecides | internal/partition.py:28-65 | a line with an object that has both fields is read if and only if it has no checksum or one equal to the CRC32 of the two; otherwise both readers do as if it was not there, whatever stands before and after it |
| Corruption.RecordLine | internal/partition.py:131-150 | of a line as `append` writes it, with any number for its checksum: a record if and only if the number is the CRC32 |
| Corruption.AlteredRecordSkipped | internal/partition.py:47-63 | a stored record whose offset or message was changed on disk is skipped unless the CRC32 agrees |
| Corruption.IncompleteSkipped | internal/partition.py:36-46 | an object without offset or without message is skipped |
| Corruption.NoObjectSkipped | internal/partition.py:31-71 | a line that does not parse, or is no object, is skipped |
| Corruption.PaddingIgnored | internal/partition.py:119-121 | blanks and tabs around a line make no difference, and a line of nothing else is no record |
| Corruption.BreaksSeparate | internal/partition.py:117-119 | newline, carriage return and both together end a line |
| Corruption.BooleanOffsets | internal/partition.py:65-65 | the scan counts a boolean offset as 0 or 1 |
| Crash.CrashKeepsSurvivors | internal/partition.py:108-162 | after a cut at any byte exactly the records whose full text survived are read |
| Crash.CrashNextOffset | internal/partition.py:28-71 | the next offset recovered after a cut is one past the last survivor, 0 if none |
| Crash.AppendAfterCrash | internal/partition.py:101-106 | what is read after a cut at any byte and further appends: all of it after a clean cut, without the first new record after a torn one |
| Crash.LosslessExactlyWhenClean | internal/partition.py:101-103 | resuming loses nothing if and only if the cut file is empty or ends in a newline |
| Rows.LayoutReads | internal/partition.py:117-162 | a file of rows of pieces of records reads as exactly the records that are alone and whole on their row, in order |
| Rows.Cut | internal/partition.py:101-103 | a cut at any byte leaves a file of that shape |
| Rows.Append | internal/partition.py:101-103 | so does an append, which adds its record only when the file ended in a newline |
| FollowerCrash.ClaimedIsHeldExactly | internal/replication.py:189-255 | over any run of a follower, with crashes at any bytes of its file and any number of them: the file gives every record it acknowledged or announced, at every moment, if and only if every step was safe |
| FollowerCrash.TornIsAcknowledged | internal/replication.py:189-255 | a run in which the record a crash cut inside its text is sent again and acknowledged, and is not in the file |
| FollowerCrash.CutOffIsAcknowledged | internal/partition.py:101-103 | a run in which an acknowledged record had not reached the disk |
| LogSpec.ReplayIdempotent | internal/partition.py:81-85 | a stream of leader records that never jumps ahead leaves the leader's prefix, whatever it repeats |
| LogSpec.GapFreeExactly | internal/partition.py:81-87 | explicit-offset appends leave a gap-free log gap-free if and only if none is ahead of the next offset when it arrives |
| LogSpec.CompleteExactly | internal/partition.py:81-87 | a log that got past an offset holds everything below it if and only if nothing jumped ahead before that |
| PartitionLog.AppendExtendsReading | internal/partition.py:73-106 | after recovery of any cleanly ending file, junk included, an append that is no duplicate adds one record to `read_all` at an offset above all others, and recovery still agrees |
| PartitionLog.AppendRefinesPut | internal/partition.py:73-106 | an append is one step of the abstract log and keeps file and next offset in step |
| Counting.CountingExactly | internal/partition.py:28-71 | on arbitrary contents, counting the lines that are not blank gives the recovered offset if and only if as many offsets below it are missing as there are junk lines and records that repeat an offset or have a negative one |
| Counting.CountingRecords | internal/partition.py:28-71 | in a file of nothing but records with increasing offsets, if and only if the offsets are 0, 1, 2, ... |
| Counting.CountingOvershoots | internal/partition.py:28-71 | a record, and a torn one with the next glued to it: two lines, and the recovered offset is 1 |
| PartitionLog.ReplayAcrossRestart | internal/partition.py:81-106 | a follower that restarts in the middle of a stream ends as if it had not, with the leader's records, under its own codec |
| PartitionLog.Partition.constructor | internal/partition.py:15-21 | an existing file is never overwritten, a missing one is created empty |
| PartitionLog.Partition.Scan | internal/partition.py:28-71 | the scan loop computes the recovered offset of the file, or raises exactly where that has none |
| PartitionLog.Partition.Append | internal/partition.py:73-106 | the new file, next offset and result, for automatic, fresh and duplicate offsets; the result is the offset given, or else the next one; no other file changes |
| PartitionLog.Partition.ReadAll | internal/partition.py:108-162 | the reading loop returns the file's valid records in order, decompressed |
| PartitionLog.OpenPartition | internal/partition.py:15-71 | opening fails exactly when the scan raises, and otherwise starts from the recovered offset |
| Compression.CompressionInvisible | internal/compression.py:7-45 | what reading returns for every payload, codec and threshold: the payload, unless it was an envelope stored as it came |
| Compression.EnvelopeIsUnwrapped | internal/compression.py:33-45 | such an envelope is unwrapped |
| Compression.StoredForm | internal/compression.py:7-30 | what is stored: an object with the compressed text and the codec's name, exactly for codec gzip and a text longer than the threshold; the payload as it is in every other case |
| Compression.UnwrapsExactly | internal/compression.py:33-45 | what is unwrapped, and as what: an object that names gzip and whose compressed text decodes; all else is returned as stored |
| StorageSpec.AppendOpRefinesPut | internal/storage.py:55-81 | an append is one abstract append on the partition it routes to, and leaves every other log alone |
| StorageSpec.RestartRefines | internal/storage.py:23-41 | the stores that can be rebuilt from the directory are exactly those with every discovered partition open and the same text and next offset for every partition, stray files or not |
| StorageSpec.RestartIsExact | internal/storage.py:23-41 | when every file of the directory belongs to an open partition, that is this very store and directory |
| StorageSpec.RestartAfterAnyAppends | internal/storage.py:23-81 | the same after any sequence of appends over any topics and partitions, with or without offsets, onto any store that is in step with its directory |
| StorageSpec.PartitionSplit | internal/storage.py:64-81 | after any publishes each partition holds exactly those routed to it, in order, at offsets 0, 1, 2, ... |
| StorageSpec.SameKeyInOrder | internal/storage.py:64-81 | of any two publishes of a run with the same topic and key, the later one stands in the same log, after the earlier one, each at its own offset with its own payload |
| StorageSpec.TotalCountsPublishes | internal/broker.py:118-124 | the sum of all next offsets is the number of publishes |
| Storage.Storage.Load | internal/storage.py:23-41 | start-up rebuilds a working store from any directory, and fails exactly when a discovered file's scan raises |
| Storage.Storage.GetPartition | internal/storage.py:43-53 | an open partition, or a new empty one; nothing else changes |
| Storage.Storage.Append | internal/storage.py:55-81 | the partition given, or else the CRC32 of the key modulo the number of partitions, or 0; the whole new store; the offset given, or else the partition's next one |
| Storage.Storage.ReadAll | internal/storage.py:83-86 | the records of one partition, which is opened if it was not |
| Storage.Storage.TotalMessages | internal/broker.py:118-124 | the loop computes the sum of all next offsets |
| ReplicationSpec.RecordedAfterAck | internal/replication.py:84-90 | an acknowledgement changes the record of one follower and partition, not another's whose key looks alike |
| ReplicationSpec.FromDense | internal/replication.py:63-66 | filtering a gap-free log from an offset gives its suffix from there |
| ReplicationSpec.SendingStep | internal/replication.py:56-76 | sending one more key's records completes that key's catch-up and disturbs no other |
| ReplicationProtocol.WantedIsMissing | internal/replication.py:43-66 | what a follower's registration asks for is exactly what its log lacks |
| ReplicationProtocol.PublishKeeps | internal/broker.py:162-167 | a publish keeps the replication invariant, whichever writes fail |
| ReplicationProtocol.RegisterKeeps | internal/replication.py:33-82 | a registration keeps it, completed or cut short |
| ReplicationProtocol.ApplyKeeps | internal/replication.py:238-255 | applying a message keeps it, also when the follower crashes after the append and before acknowledging |
| ReplicationProtocol.AckKeeps | internal/replication.py:84-92 | an acknowledgement keeps it, stale ones included |
| ReplicationProtocol.CloseKeeps | internal/networking.py:247-254 | dropping the follower of a closed connection keeps it |
| ReplicationProtocol.PrefixTheorem | internal/replication.py:33-139 | in every reachable state a registered follower's log followed by what is on its way is the leader's log |
| ReplicationProtocol.AcksAllTheorem | internal/replication.py:94-112 | when the poll succeeds every follower in the table holds every leader record up to the offset |
| ReplicationProtocol.LogsOnlyGrow | internal/replication.py:238-244 | over every run a follower keeps what it holds |
| ReplicationProgress.RegisterSteadies | internal/replication.py:41-54 | a registration with no leftovers of older connections brings the table level with the follower |
| ReplicationProgress.SteadyFollowerAcks | internal/replication.py:94-112 | while its connection holds it stays so: once both channels drain, every poll accepts this follower |
| ReplicationLeftovers.AcksExactlyWithoutLeftovers | internal/replication.py:84-112 | for any state of the invariant and a follower registered and level on its connection: every run that keeps the connection and drains it ends with polls accepting the follower if and only if no request of its older connections is unread |
| ReplicationLeftovers.StaleAckFailsPoll | internal/replication.py:84-112 | one late acknowledgement below the last offset fails the poll, with nothing else changed |
| ReplicationStale.StaleAckBlocks | internal/replication.py:84-112 | such a run from the start of a tenure: the only follower holds everything, nothing is in flight, and the poll fails |
| TornReplication.TornExactly | internal/replication.py:33-255 | over every run of a tenure in which followers may crash at any byte of any file: at every moment every follower's files give all that it acknowledged or announced if and only if every event was safe |
| TornReplication.TornAcksAll | internal/replication.py:94-112 | in such runs, when the poll succeeds the file of every follower in the table gives every leader record up to the offset |
| TornPoll.PollSucceedsOnTorn | internal/replication.py:94-112 | a run, for every payload and cut inside its text, after which the poll succeeds and the only follower's file gives nothing |
| ReplicationInterleaved.AgreementTheorem | internal/replication.py:33-139 | under every interleaving a follower's log strictly increases, holds the leader's record at each of its offsets, and recorded acknowledgements stay below its next offset |
| ReplicationInterleaved.EventSound | internal/replication.py:56-82 | every step of the interleaved system keeps the invariant behind that |
| ReplicationInterleaved.PutAgrees | internal/partition.py:81-106 | a message that comes early, late or in order keeps the follower's log in agreement with the leader's |
| ReplicationCompleteness.LogIsReplay | internal/replication.py:238-244 | a follower's log is the replay of everything it took from its connections |
| ReplicationCompleteness.AcksAllExactly | internal/replication.py:94-112 | under every interleaving, when the poll succeeds the follower holds every record up to the offset if and only if no message reached it ahead of its next offset before that |
| ReplicationCompleteness.AcksAllFailsWhenOvertaken | internal/replication.py:41-76 | a run where the poll succeeds although the follower lacks a record, and will never get it |
| ReplicationUninterrupted.PublishUninterrupted | internal/replication.py:114-139 | whichever writes fail, the append and the writes of a publish without a switch between them end in the state of the protocol's single step |
| ReplicationUninterrupted.RegisterUninterrupted | internal/replication.py:41-76 | so do entering the tables, and reading and writing one partition after the other: with a complete catch-up, or with the part written when a write fails or the catch-up is cancelled, at any message |
| Replication.ReplicationManager.HandleReplicateAck | internal/replication.py:84-90 | the new tables after an acknowledgement |
| Replication.ReplicationManager.PollAcks | internal/replication.py:101-110 | one poll answers true exactly when the table has an acknowledgement of the offset or a later one for every follower; always without followers |
| Replication.ReplicationManager.BroadcastReplication | internal/replication.py:114-139 | each connection carries the message once for every follower registered on it whose write got through; only followers whose connection broke are dropped, and every follower whose connection did not has the message on its way |
| Replication.ReplicationManager.StoreAndReplicate | internal/broker.py:162-167 | the record in the store at the next offset of its partition, and on its way to the followers as after a broadcast |
| Replication.ReplicationManager.Forget | internal/networking.py:247-254 | the follower registered on the closed connection is out of the table, and no other; acknowledged offsets stay |
| Replication.ReplicationManager.FullOffsets | internal/replication.py:43-52 | the follower's offsets, and 0 for exactly the partitions it does not know |
| Replication.ReplicationManager.CatchUpPartition | internal/replication.py:63-76 | one partition's records from an offset on are written in order, or a prefix of them |
| Replication.ReplicationManager.CatchUp | internal/replication.py:56-76 | the whole catch-up is the protocol's, complete or cut short by a failed write |
| Replication.ReplicationManager.RegisterFollower | internal/replication.py:33-82 | tables and messages after a registration are those of the protocol's step; the follower is in the table exactly if its connection held |
| Replication.ReplicationManager.GatherOffsets | internal/replication.py:189-193 | the follower announces each of its partitions with its next offset, and nothing else |
| Replication.ReplicationManager.Apply | internal/replication.py:223-255 | a line without topic, partition, offset or payload changes nothing and is not acknowledged; every other is appended and acknowledged |
| Replication.PublishStep | internal/broker.py:162-162 | the leader's append is the protocol's for every codec and threshold |
| Replication.ApplyStep | internal/replication.py:238-244 | so is the follower's, with its own codec and threshold |
| Replication.GatheredIsAnnounced | internal/replication.py:189-201 | what the follower gathers is what the protocol announces |
| Tenure.Tenure.Publish | internal/broker.py:162-167 | a publish on the real leader takes the protocol's publish step, and stores, tables and connections are as its new state says |
| Tenure.Tenure.HandleRegister | internal/replication.py:33-82 | so does a registration read from a connection, complete or cut short |
| Tenure.Tenure.HandleAck | internal/replication.py:84-92 | so does an acknowledgement, of the current connection or an earlier one |
| Tenure.Tenure.Close | internal/networking.py:247-254 | so does the server's close of a connection |
| Tenure.Tenure.Connect | internal/replication.py:189-202 | so does a follower that connects and announces its offsets |
| Tenure.Tenure.Apply | internal/replication.py:223-255 | so does a follower that stores the next message and acknowledges it, or crashes before |
| Tenure.Tenure.Disconnect | internal/replication.py:256-275 | so does a follower that loses its connection |
| Tenure.Tenure.PollAcks | internal/replication.py:101-110 | when one poll succeeds, the file of every follower in the leader's table gives each record of the leader's file up to the offset |
| Cluster.ClusterManager.ReceiveHeartbeat | internal/cluster.py:86-110 | every leader heard becomes the known leader and resets the clock; a leader that hears a listed one above it steps down and follows it; nothing else changes; a broker that is down ignores it |
| Cluster.ClusterManager.Poll | internal/cluster.py:174-203 | the poll finds the broker itself and exactly the members that answer |
| Cluster.ClusterManager.TriggerElection | internal/cluster.py:167-226 | the broker leads and follows nobody exactly if no member that answers has a higher id, and otherwise follows the highest that answered |
| Cluster.ClusterManager.Turn | internal/cluster.py:115-152 | a turn of the heartbeat loop: leaders beat, followers elect only after the timeout |
| Cluster.Max | internal/cluster.py:205 | the highest of the ids |
| ClusterProtocol.StepKeepsWindow | internal/cluster.py:112-226 | every step keeps the window: polls miss nobody who is up, and nothing is in flight from a broker that is down |
| ClusterProtocol.LeadersExactly | internal/cluster.py:86-226 | who leads after any run, exactly: the top broker if it led or was promoted, another if it led and heard nobody above it |
| ClusterProtocol.LeadersConverge | internal/cluster.py:94-102 | the leader set gains nobody but the top broker, which never steps down |
| ClusterProtocol.HeartbeatShrinks | internal/cluster.py:94-102 | each heartbeat of the top broker delivered to another leader takes exactly that one out |
| ClusterProtocol.OneLeader | internal/cluster.py:86-226 | once every other broker has heard the top broker, it leads alone |
| ClusterProtocol.TopElectsItself | internal/cluster.py:205-215 | an election the top broker finishes ends in its promotion |
| ClusterFollowing.StepFollows | internal/cluster.py:86-226 | what every step makes of the known leader and of the broker followed: it changes for a lost election, a promotion, and a leader deposed from above, and to the broker concerned |
| ClusterFollowing.LoserFollows | internal/cluster.py:94-110 | whoever loses the lead in a step follows the broker it lost it to, which is up and has a higher id |
| ClusterFollowing.FollowsExactly | internal/cluster.py:86-226 | whom a broker other than the top one follows after any run: the top broker if it finished an election, else the first leader above it that it heard if it led, else whom it followed before |
| ClusterProgress.CanConverge | internal/cluster.py:112-226 | from every state of the window, any number of leaders and anything half done, there is a run after which the top broker leads alone |
| GroupSpec.MembersExactly | internal/groups.py:81-109 | after any calls the members are exactly the consumers registered last and not gone since, each once |
| GroupSpec.OrderOfJoining | internal/groups.py:81-109 | after any calls they stand in the order of the calls that made them members |
| GroupSpec.ShareSize | internal/groups.py:136-140 | a member's share is the floor of P/n, plus one for the first P mod n members |
| GroupSpec.BalancedCover | internal/groups.py:120-141 | each partition has exactly one owner, the member at place p mod n; loads are floor or ceiling of P/n |
| GroupSpec.EmptyOwnsNothing | internal/groups.py:126-132 | an empty group owns nothing |
| Groups.GroupManager.Rebalance | internal/groups.py:120-141 | the loop computes the round-robin assignment of one group and changes no other |
| Groups.GroupManager.RegisterConsumer | internal/groups.py:81-97 | a newcomer joins at the end, a member stays where it is; every assignment stays round-robin; its share is returned |
| Groups.GroupManager.DeregisterConsumer | internal/groups.py:99-109 | the consumer is taken out of its place and the others close up, a stranger changes nothing; every assignment stays round-robin |
| Groups.GroupManager.GetAssignment | internal/groups.py:111-118 | the member at place j gets the j-th round-robin share of the topic, a consumer that is no member nothing |
| GroupSpec.Remove | internal/groups.py:104 | the first occurrence is taken out |
| BrokerSpec.OneQueuePerGroup | internal/broker.py:201-221 | a message goes to exactly one queue of each group with members, that of member p mod n, and different groups' queues differ |
| BrokerSpec.ServedExactly | internal/broker.py:188-221 | said of members: in every group of the topic the one at place p mod n gets the message at the end of its queue, no other member's queue changes, and the standalone queues that get it are those of the topic |
| BrokerSpec.RejoiningKeepsStep | internal/broker.py:265-268 | a session that registers again keeps members and queues in step exactly if it is still a member |
| Broker.Broker.EnterGroup | internal/broker.py:256-268 | the start of a group session keeps members, events and queues in step, with a new empty queue; the newcomer stands last; every member of the group is woken, and no other group's |
| Broker.Broker.ResumeGroup | internal/broker.py:265-269 | a session that wakes up changes nothing and gets its current share |
| Broker.Broker.LeaveGroup | internal/broker.py:336-342 | its clean-up takes the consumer, its event and its queue out; everybody else keeps the order; the members left are woken, and no other group's |
| Broker.Broker.TriggerGroupRebalance | internal/broker.py:458-461 | every member of the group is woken, no other group's |
| Broker.Broker.FindOwner | internal/broker.py:206-212 | the loop finds a consumer whose share holds the partition, or there is none |
| Broker.Broker.GroupQueue | internal/broker.py:206-219 | the queue found is that of member p mod n, or there is none to find |
| Broker.Broker.EnqueueGroups | internal/broker.py:201-221 | each group's target queue gets the message once at its end, every other queue stays as it is |
| Broker.Broker.EnqueueStandalone | internal/broker.py:196-198 | every standalone queue of the topic gets it once, no other |
| Broker.Broker.Publish | internal/broker.py:141-221 | with acks 0 or 1: refused without effect when killed, disconnected or not leading, in this order; otherwise one more record at the end of one partition's log, and the message, labelled with that partition and offset, at the end of the queue of the member at place p mod n in every group of the topic and of every standalone queue of the topic, and on no other; tables and connections as after a broadcast |
| Broker.Broker.PublishAndWait | internal/broker.py:141-221 | with acks=all: the same refusals; it succeeds only with the record acknowledged by every follower in the table, and always without followers; then the queues have changed as after `Publish` since the coroutine was woken last |
| Broker.Broker.WaitForAcks | internal/replication.py:94-112 | the waiting loop succeeds only when every follower in the table has acknowledged, whatever other tasks do between its polls, and at once when they all have at its start |
| Broker.Broker.ReplayHistory | internal/broker.py:357-377 | history from an offset is written in order and committed record by record; it ends early only when the connection breaks |
| Broker.Broker.Subscribe | internal/broker.py:348-383 | a named consumer starts from its stored offset, which ends one past the last record replayed, no other offset changes; its queue is registered exactly if the connection holds through the whole replay, and only after it |
| Broker.Broker.StreamNext | internal/broker.py:387-406 | the first queued message is written and then committed, or not committed if the write fails |
| Broker.Broker.ConsumeGroupPartition | internal/broker.py:463-491 | a group member writes one partition's history from the group's committed offset on, in order, and commits one past the last record written and drained; it ends early only when the connection breaks |
| Broker.Broker.StreamGroup | internal/broker.py:305-325 | the first queued message is written and then committed for the group, or discarded when its partition is no longer the consumer's |
| Broker.Broker.Unsubscribe | internal/broker.py:413-419 | this queue is taken out of its place in the topic's list and the others close up, the topic goes with its last queue, and no other topic changes |
| Subscription.SubscriptionRefinesLog | internal/broker.py:357-406 | with acks 0 or 1, for any sessions and interleaving, what a client was written followed by what is queued is the log from its start |
| Subscription.ReceivesArrivals | internal/broker.py:188-198 | with any acks a session receives the puts since it started, in their order |
| Subscription.InOrderExactly | internal/broker.py:169-198 | it stays in order if and only if records are put on the queues once each in the order they were stored |
| Subscription.WaitingReorders | internal/broker.py:169-198 | with acks=all two records can be queued in the opposite order |
| Subscription.WaitingRepeats | internal/broker.py:169-198 | with acks=all a consumer that subscribes during the wait gets the record twice |
| Listeners.Listeners.Publish | internal/broker.py:141-198 | a publish on the real broker takes the model's publish step, or none when refused, and store, queues and clients are as its new state says |
| Listeners.Listeners.Subscribe | internal/broker.py:348-383 | so does a session that replays history and registers its queue |
| Listeners.Listeners.Stream | internal/broker.py:387-419 | so does a turn of the live loop; a failed write ends the session in the model too |
| Listeners.Listeners.Store | internal/broker.py:162-167 | so does the first part of a publish with acks=all |
| Listeners.Listeners.Enqueue | internal/broker.py:188-198 | and so does its last part, after the wait |
| Listeners.Listeners.GiveUp | internal/broker.py:169-180 | a publish whose wait times out leaves its record stored and on no queue |
| Listeners.ClientsReadTheFile | internal/broker.py:357-406 | on the objects, after any run with acks 0 and 1: what a session's client was written are the records of the topic's file from the session's start, in order, without gap or repetition |
| Resumption.RepeatsOnlyUncommitted | internal/broker.py:387-406 | over every run: the next record to write was written before if and only if a session of the run ended after writing it and before committing it |
| Resumption.QuietRepeats | internal/broker.py:387-406 | in runs without a publish during a replay it is then the first of its session, and the one written last |
| Resumption.ResumesExactly | internal/broker.py:348-406 | over every run, publishes during a replay included: the client was written every record below the stored offset if and only if every commit of the run was of the record at the stored offset |
| Resumption.LostForGood | internal/broker.py:400-406 | after a commit of a later record the records passed over are missing on every continuation |
| Resumption.ResumptionTheorem | internal/broker.py:348-406 | runs without a publish during a replay leave no gap: every record below the stored offset was written, in order, and at most one past it |
| Resumption.ReplayLosesPublish | internal/broker.py:357-406 | a run with a publish while the last record of the history drains: once the record published after the replay is committed, the one published meanwhile is lost for good |
| Resumption.ReplayPublishRecovered | internal/broker.py:357-406 | the same run ended before that commit: the next session writes it |
| Readers.Reader.Connect | internal/broker.py:348-358 | on the real broker: looking up the stored offset and reading the history is the model's connect, and store, offsets, queue and connection are as its new state says |
| Readers.Reader.Write | internal/broker.py:359-367 | writing the next record of the history or the queue is the model's write; when it fails the session ends in the model too |
| Readers.Reader.Commit | internal/broker.py:374-377 | updating the stored offset is the model's commit |
| Readers.Reader.GoLive | internal/broker.py:379-383 | registering the queue is the model's step to live |
| Readers.Reader.Subscribe | internal/broker.py:348-383 | the broker's whole code up to the first wait is the model's run of connect, one write and commit for each record of the history, and the step to live; when the connection breaks, that run cut short after a commit or a write |
| Readers.Reader.Disconnect | internal/broker.py:413-419 | the clean-up is the model's disconnect |
| Readers.Reader.Publish | internal/broker.py:141-198 | a publish at a switch point of the session is the model's publish, or none when refused |
| Readers.Since | internal/broker.py:359-361 | the loop keeps exactly the entries at the offset or above, in order |
| Readers.ReadsTheFileExactly | internal/broker.py:348-406 | on the objects, after any run: the consumer was written every record of the topic's file below its stored offset if and only if every commit was of the record at the stored offset |
| Offsets.OffsetTable.constructor | internal/offsets.py:14-26 | start-up reads the file, creates a missing one, and starts empty on an unreadable one |
| Offsets.OffsetTable.GetOffset | internal/offsets.py:33-41 | an uncommitted offset is 0; looking up changes no committed offset |
| Offsets.OffsetTable.UpdateOffset | internal/groups.py:70-79 | one offset changes, and a restart would read the same table |
| Offsets.Restart | internal/offsets.py:14-26 | a restart at any moment gives the same committed offsets and leaves the file as it is |
| Lag.CommittedNeverAhead | internal/broker.py:471-490 | in every state reachable by publishes, history and live tasks, cancellations and restarts, each group's committed offset is at most the next offset of every partition, whose log has offsets 0, 1, 2, ... |
| Lag.CommitsGoBack | internal/broker.py:321-325 | a run from an empty store after which a history task's commit moves the committed offset from 2 back to 1 |
| Commits.StepCommits | internal/groups.py:53-79 | a commit enters one past its task's record, and no other step changes any committed offset |
| Commits.HistoryCatchesUp | internal/broker.py:471-490 | a history task that runs to its end with nothing between leaves its group no lag on the partition and touches no other |
| Commits.LiveKeepsUp | internal/broker.py:305-325 | a record published to a group without lag: committed by its live loop it leaves none; discarded by it, it is on no queue any more and stays uncommitted |
| Lag.ReportLags | internal/metrics.py:117-134 | the nested loops compute, for every group, the clamped differences summed over its topics and their partitions, and change no offset |
| Lag.ReportLag | internal/metrics.py:120-133 | the same for one group |
| Lag.ReportPartitionLag | internal/metrics.py:122-132 | one partition's next offset less the committed one, 0 when that is ahead |
| Lag.GroupLagExact | internal/metrics.py:120-133 | where committed offsets are healthy, a group's lag is the number of its records not committed, over all its topics |
| Lag.LagExact | internal/metrics.py:117-134 | that holds in every reachable state, where the clamp never applies |

## Left out

- JSON is modelled without floating-point numbers and NaN, and texts as UTF-16 code units; undecodable bytes and nesting beyond Python's recursion limit, which make start-up raise, are not modelled.
- CRC32 is an arbitrary function of offset and message; gzip with base64 is an arbitrary pair that round-trips on dumped values.
- Universal newlines are modelled for reading; files are written with `\n`, so Windows translation on write is not.
- A topic with a path separator names a file outside the log directory, where opening raises; the store's operations require topics without one.
- The number of partitions is at least 1.
- Nested dictionaries (topic to partition, group to topic to consumer) are maps keyed by pairs.
- Agreement across leader changes: nothing truncates a follower's log when leadership moves, so the replication theorems are about one leader tenure.
- The replication theorems are about payloads that are not themselves compression envelopes; `Compression.CompressionInvisible` says what happens to the others.
- Redirecting the sync task to another leader: its loop swallows cancellation; one stream per follower connection is modelled, and replays are covered by `PartitionLog.ReplayAcrossRestart`.
- ReplicationProtocol.ApplyKeeps: a crash in the middle of an append is not a step of this protocol; it is an event of `TornReplication`.
- LogText.RecoveryAgreesWithReading: floating-point offsets, which the scan accepts, are outside the modelled JSON.
- Storage.Storage.Load: a file name whose number has digits outside ASCII is skipped; the code parses decimal ones and raises on others, such as superscripts.
- Keys.FileNameRoundTrip: is about numbers written with ASCII digits, as above.
- Storage.Storage.GetPartition: requires a topic without a path separator; with one the code works when the named directory exists.
- Storage.Storage.Append: requires such a topic too.
- Storage.Storage.ReadAll: requires such a topic too.
- Replication.ReplicationManager.CatchUpPartition: requires a leader file whose readable records have natural offsets, torn or out of order as it may be; the code also sends records that a foreign writer gave negative or boolean offsets, and raises on text.
- Replication.ReplicationManager.CatchUp: requires such files too.
- Broker.Broker.ReplayHistory: requires such a file too.
- Broker.Broker.Subscribe: requires such a file too.
- Broker.Broker.ConsumeGroupPartition: requires such a file too.
- Replication.ReplicationManager.RegisterFollower: requires such files; the messages are the protocol's for offset keys in the form followers write; a key with leading zeros would send its partition's records again.
- Replication.ReplicationManager.PollAcks: is one round of the waiting loop; the protocol's steps happen between rounds, and the timeout is a poll that is not taken.
- Cluster.ClusterManager.TriggerElection: is the election when no other task intervenes; the interleaved one is in `ClusterProtocol`.
- Heartbeats whose sender id is not a number, and the clock: time is a parameter.
- Broker.Broker.Publish: is the path for acks 0 and 1. Putting on an unbounded queue never suspends, so the routing of one message is one step.
- Broker.Broker.PublishAndWait: other tasks run between the polls, so of store, tables and connections it promises only what every task keeps; the order in which waiting publishes are queued is in `Subscription`.
- Broker.Broker.WaitForAcks: the timeout is a number of polls.
- Completeness of group delivery: the live loop can discard a message it has dequeued when a rebalance wakes it at the same time, so only routing to queues is proved, not at-least-once delivery.
- Lag.ReportLags: the topics of each group are given as a sequence; how they are collected from the group tables is not modelled.
- Lag.ReportLag: as `ReportLags`.
- Listeners.Listeners.Publish: the publishes are those of one topic, without a key, and of payloads that are not compression envelopes; sessions of other topics and groups are not in the model's state.
- Readers.Reader.Publish: as `Listeners`, and its broadcast does not suspend, as on a broker without followers.
- Resumption.ResumesExactly: a publish is one step, as for `Readers`; a publish that waits is in `Subscription`.
- Listeners.Listeners.Store: begins after the refusals of `Publish`.
- Tenure.Tenure.Publish: topics are not empty and have no path separator, and payloads are objects that are not compression envelopes.
- A crash between truncating and rewriting an offsets file: the file is one cell that is written as a whole.
- Sockets, timeouts in seconds, message parsing, metrics other than lag, logging, fsync and graceful shutdown.
