# A verified model of the TDMA radio node

One node of a radio network in which a master hands out time slots, slaves
acknowledge them, and all nodes keep distance-vector routes. The model follows
the C code branch by branch, in four linked parts.

**Timetable and slots.** `Bytes` and `TbFormat` are the timetable broadcast
(TB) as bytes: how the master builds it, how a node reads it, how bits are
cleared in it. `Dispatcher` is the slot arithmetic of the sending thread in
64-bit unsigned arithmetic. `Node` holds what a node does with a TB or TA, as
specification functions and as the class that updates `Self` in place.
`Network` runs any number of nodes, with messages lost, repeated and reordered
at will, and ends in collision freedom; `Collision` builds the run in which it
fails. `Switching` is the change from one timetable to the next, `Membership` who
is inside the network, and `LargeNetworks` what becomes of more than 256 nodes.

**Acknowledgement and flooding.** `TbRound` is a round at the master: starting,
remaking, clearing bits, completion. `Flooding` is the suppression of repeated
TBs and TAs by PBID, `PbidTable` the linked table behind it, and `TaTable` the
proof that the table and the map used in the flooding theorems agree.
`RoundTrip` follows a TB along a row of slaves and the TA of the last one back,
`TaReturn` says exactly when that gets to its bit at the master, and `Sendings`
counts the sendings that it takes. `Join` is the NE, NEP, NER, NEA exchange with
its breadcrumbs, `JoinHandlers` its handlers as they update lists, retransmissions
and routing table, `Invitation` the part of it that makes an outsider wait,
`JoinRoutes` the way an NER takes over the routing tables, and `MasterJoin` the
exchange together with the rounds of the master. `Lifecycle` is a slave between
outside, waiting and inside, with `PB_RX` as it updates `Self`. `IpList` is the
address lists.

**Routing.** `Distance` is the arithmetic of distances along a path, `Routing`
the table as a sequence and as a map, `Routes` the choice of the next hop,
`RoutingRuns` the packets that feed the table, `History` what its entries say in
terms of those packets, `RoutingNet` the conversation between many nodes, and
`RoutingTable` the linked list that the code keeps.

**Timers and queue.** `Retransmission` is the timer state machine and its
lateness bound, `Transmissions` the messages that go out over a run,
`Retransmitter` the object that the threads share, and `Queue` the priority queue
between producers and the consumer. `Chain` and `Sequences` hold what the linked
lists have in common, `Runs` what runs of any state machine have.

A region under a lock is one step. Times are nanoseconds and enter as
parameters; PBE values are reals; a null pointer that the code would follow is
a value of the result type.

## What does not hold

Where a promise fails, a lemma gives the input and another the exact
condition:

* A TB that does not list a node, heard while an older timetable is pending,
  leaves the node sending in the slot of the last listed node
  (`Network.StaleTableTakesLastSlot`), and the two collide in a run
  (`Collision.LateTbMakesNodesCollide`). `Network.CollisionFreedom` has the exact
  condition; nodes that every round lists, and all nodes while there is one
  round, meet it.
* While nodes change from one timetable to the next, a transmission up to the new
  sync can collide with one after it (`Switching.ChangeoverCollides`); on either side
  of it they cannot (`Switching.ApartOnEitherSide`).
* A slot shorter than the transmission jitter makes the unsigned bound wrap
  (`Dispatcher.ShortSlotsCollide`, exactly:
  `Dispatcher.ExclusiveIffSlotCoversJitter`).
* Answering a TB uses up the next PBID, so the next TB of the round stops at a
  node that has not been acknowledged (`Flooding.UnacknowledgedNeverRelays`): if
  the TAs of one sending get lost, the TA of a node farther out takes two more
  (`Sendings.LostTasCostTwoSendings`, exactly:
  `Sendings.ResendingComesBackExactly`).
* A node with sub-slaves starts its PBID again at 0 after it has answered the first
  TB of a round with its old one. If that TA gets lost behind a node that has
  recorded it, its TAs are swallowed there until its PBID has passed the old one:
  `p + 2` sendings for an old PBID `p` (`Sendings.SwallowedTaCosts`, exactly:
  `Sendings.SendingsNeededExactly` and, for one sending, `TaReturn.TaComesBackExactly`).
* A node that misses the first TB of a timetable stays silent until the PBIDs pass
  its own (`Flooding.SilentUntilPassed`, exactly: `Flooding.RelayRule`).
* Among more than 256 nodes a node answers for the one at its position modulo 256
  (`LargeNetworks.AnswersForPlace`); the one at position 256 never answers, and the
  round waits for it for ever (`LargeNetworks.SilentAt256`, `LargeNetworks.WaitsForEver`).
* The completion scan looks one byte behind the bitmap when eight divides the
  node count (`TbRound.ScanMeans`); the master never completes a round in which
  it lists itself (`TbRound.CompletionIsExact`).
* The count of TB transmissions is one byte and is never reset, which decides
  when a round is remade (`TbRound.RemadeIff`).
* Distances wrap for losses above 1E-4 (`Distance.LossyLinkLooksShort`, exactly:
  `Distance.InRangeExactly`).
* The rolling average changes an entry without moving it, so that a farther
  neighbour is chosen (`RoutingRuns.RollingMisleads`); a table stays sorted exactly
  in the runs of `RoutingRuns.SortedExactly`.
* Over links without loss two slaves can route through each other, even with the
  master in range (`RoutingNet.PerfectLinksLoop`), and swallow every NER
  (`JoinRoutes.MutualNeverAnswers`); `Distance.LoopsExactly` and
  `JoinRoutes.AnsweredExactly` have the exact conditions.
* A PC from a pruned neighbour follows a null pointer
  (`RoutingRuns.LateConfirmationCrashes`, exactly: `RoutingRuns.CrashesIffUnknown`
  and `RoutingRuns.ChoiceCrashesExactly`); so does an NE or NER at a slave without
  a usable neighbour (`JoinRoutes.FirstNeCrashes`, exactly:
  `Join.StuckWithoutRoute`), a second consumer of a queue (`Queue.TwoConsumersCrash`,
  exactly: `Queue.SafeIffOneConsumer`) and a list position equal to the size
  (`IpList.AddressList.GetAt`).
* The pair of zeros hides the PBID table (`PbidTable.ZeroPairHidesTheTable`,
  exactly: `PbidTable.InsertRefinesExactly`), and an insertion between finding and
  removing makes `removeIPList` take the wrong address
  (`IpList.RemovalTakesTheOther`, exactly: `IpList.RemovalRace`).
* A node that was once a proxy for an outsider swallows its NEA, so that joining a
  second time through it fails (`Join.SecondJoinFails`, exactly:
  `Join.NeaComesBackExactly`).
* A TB that takes a node inside does not stop its NE, and the fifth NE puts it outside
  again (`Lifecycle.ListedButPutOut`, exactly: `Lifecycle.StaysInsideExactly`).
* A second copy of an NEP, coming after the node has given up waiting, makes it wait
  for ever (`Lifecycle.LateNepStrands`, exactly: `Lifecycle.GivesUpExactly`).
* There is one NER buffer, and an NEA for any former outsider stops what is in it
  (`Join.LateNeaDropsNer`, exactly: `Join.NerLostExactly`).

Where comments and code differ, the model follows the code: `routGetEntryByPos`
gives the last entry past the end, not null (`src/data_structures/routing_table.h`);
`routRemoveEntry` returns true only for the head; `pbidSearchPair` compares both
values, not only the PBID (`src/data_structures/pbid_table.h`); the TB timeout is
6 to 7 s, not 1 to 2 s (`src/data_structures/protocol.h:58-59`).

## Model

| member | source | states |
|---|---|---|
| Bytes.LeRoundTrip | src/data_structures/message_build.c:99 | a clock reading stored as eight little-endian bytes reads back as itself |
| Bytes.ShortRoundTrip | src/TX/retransmission.c:118 | storing a short as two bytes keeps its value modulo 65536, so the PBID wraps at the end of the signed range |
| Bytes.ClearedBits | src/utils/macros.h:3 | CLEARBIT clears the one bit it names and no other |
| Bytes.SetBits | src/utils/macros.h:2 | SETBIT sets the one bit it names and no other |
| Bytes.LeadingOnes | src/data_structures/message_build.c:130 | 0xff shifted left by 8 - rest has exactly its first rest bits set |
| TbFormat.StoreHeader | src/data_structures/message_build.c:92-103 | every header field is found again at its offset |
| TbFormat.StoreIps | src/data_structures/message_build.c:106-114 | the list is the master, then the sub-slaves in list order; the header stays |
| TbFormat.StoreBitmap | src/data_structures/message_build.c:118-133 | bit i is set exactly for 1 <= i < n; master bit and padding are clear, for every n |
| TbFormat.BuildTb | src/data_structures/message_build.c:75-136 | the finished buffer has every field of a fresh TB at once: header, list, bitmap and length |
| TbFormat.TbBytesGenerated | src/data_structures/message_build.c:75-136 | the bytes written down as an expression are such a TB, for every master, clock reading and slave list |
| TbFormat.AllocationMatches | src/data_structures/message_build.c:77-90 | ceil(17n/8) + 18 is the sum of header, list and bitmap, for every n |
| TbFormat.CountSurvives | src/data_structures/message_build.c:103 | the node count survives the short at byte 16 if and only if there are fewer than 32767 slaves |
| TbFormat.GeneratedSize | src/data_structures/node.c:114-126 | getPacketSize of a generated TB is its length and its allocated size |
| TbFormat.ReadsBack | src/RX/time_table.c:27-56 | round trip: decoding a generated TB gives the list, sync = clock + 1 ms, slot size and table size that the master put in |
| TbFormat.TableSizeZeroIff | src/RX/time_table.c:53-54 | a listed node is offered a table of size 0 if and only if the slot byte of the TB is 0 |
| TbFormat.ReadsOwnSlot | src/RX/time_table.c:33-41 | with distinct addresses each node finds itself at the position where the master listed it |
| TbFormat.CoreDecides | src/RX/time_table.c:27-56 | two TBs that agree on bytes 5 up to the bitmap give every reader the same list and timetable |
| TbFormat.OwesAfterClearing | src/data_structures/time_table.c:24-27 | the arithmetic on place/8 and place%8 hits exactly bit place |
| TbFormat.ClearingIsExact | src/data_structures/time_table.c:4-28 | clearing changes the bit of the first listing of the address and nothing else; an unlisted address changes nothing |
| TbFormat.FindPlace | src/data_structures/time_table.c:9-16 | the search returns the first position of the address, or -1 |
| TbFormat.ClearBitmapValue | src/data_structures/time_table.c:4-28 | the buffer afterwards is the one with that bit cleared |
| TbFormat.GetBitmapValue | src/data_structures/time_table.c:31-54 | true exactly for a listed address whose bit is set |
| TbFormat.NextPbid | src/TX/retransmission.c:118 | the PBID in the buffer goes up by one, as a short |
| TbFormat.StampingKeepsCore | src/RX/time_table.c:108-112 | a relay changes the sender and nothing that decides a timetable |
| TbFormat.BumpingKeepsCore | src/TX/retransmission.c:118 | re-sending changes the PBID and nothing that decides a timetable |
| Dispatcher.TestWithoutWrap | src/TX/WF.c:59-80 | with slots no shorter than the jitter, the unsigned test is the remainder test; no intermediate result wraps |
| Dispatcher.SendsIsWindow | src/TX/WF.c:59-80 | the division test holds if and only if now lies in the window of some cycle of the own slot |
| Dispatcher.SlotsNeverCollide | src/TX/WF.c:59-80 | transmissions started in different slots of one timetable, each at most one jitter long, never overlap |
| Dispatcher.FirstCycleWraps | src/TX/WF.c:80 | with a slot shorter than the jitter the bound wraps and the whole first cycle counts as inside the slot |
| Dispatcher.ShortSlotsCollide | src/TX/WF.c:80 | then slots 0 and 1 both pass the send test at the same instant |
| Dispatcher.ExclusiveIffSlotCoversJitter | src/TX/WF.c:80 | exclusion holds if and only if the slot is no shorter than the jitter or there is one node |
| Dispatcher.SlotTimesExclude | src/TX/WF.c:59-80 | the sending instants of two slots exclude each other if and only if the slots are different |
| Dispatcher.SlotlessIsLastSlot | src/TX/WF.c:59-80 | with local_slot still -1 and at least one slot between the epoch and the sync, a node transmits exactly when the last listed node does |
| Dispatcher.SlotlessNearEpochIsSilent | src/TX/WF.c:59-80 | with less than one slot in between, the start of its slot wraps to the end of the 64 bits, and it never transmits |
| Dispatcher.NextIsLeast | src/TX/WF.c:61 | Next is the least own-slot start after now, at most one cycle away |
| Dispatcher.NothingBeforeNext | src/TX/WF.c:59-80 | no instant between a refused one and Next passes the send test |
| Dispatcher.NextSends | src/TX/WF.c:59-80 | Next itself passes the send test |
| Dispatcher.WakesBeforeTarget | src/TX/WF.c:63-115 | each of the three sleeps ends no later than its target and misses it by less than a microsecond, unless it exceeds the range of usleep |
| Dispatcher.NeverSleepsThroughSlot | src/TX/WF.c:59-115 | the dispatcher never sleeps through an instant at which it could have sent |
| Node.SomeSubOwesMeans | src/RX/time_table.c:61-64 | the relay loop finds out whether any sub-slave still owes a TA |
| Node.TakenOverwrites | src/RX/time_table.c:25-56 | once the own address is found, nothing of the previous pending timetable survives |
| Node.HearingEffect | src/RX/time_table.c:25-56 | hearing a TB never touches the installed timetable; the pending one becomes the own slot of that TB, or loses its slot |
| Node.NodeObject.constructor | src/main.c:158-187 | the state before anything is heard; the master's TB PBID starts one ahead |
| Node.NodeObject.GenerateTb | src/data_structures/message_build.c:65-150 | the master builds the TB, takes slot 0 of it, and counts its PBID up |
| Node.NodeObject.AnySubOwes | src/RX/time_table.c:61-64 | the loop with its getBitmapValue calls decides SomeSubOwes |
| Node.NodeObject.RelayTb | src/RX/time_table.c:98-113 | relays, with the own address stamped in, exactly under the PBID rule; otherwise neither the buffer nor the PBID changes |
| Node.NodeObject.TakeTb | src/RX/time_table.c:52-116 | the whole new state and the messages sent, for a listed node |
| Node.NodeObject.TbRx | src/RX/time_table.c:3-117 | TB_RX does what the specification function ReceiveTb says, through all exits |
| Node.NodeObject.TaRxAtSlave | src/RX/time_table.c:168-187 | a slave passes on a TA of a sub-slave exactly if its PBID is greater than any seen, and records it |
| Node.NodeObject.CheckNewTimeTable | src/data_structures/time_table.c:56-72 | a pending timetable is installed exactly when its sync has passed, and then is no longer pending |
| Node.NodeObject.Dispatch | src/TX/WF.c:20-118 | one pass sends, keeps or fetches the message to send exactly as the decision says, the division by zero included |
| Network.ReadsLikeOriginal | src/RX/time_table.c:27-56 | every descendant of a TB decodes to the list and timetable of its round |
| Network.HeardTable | src/RX/time_table.c:25-56 | after hearing any copy, a node's timetables are its own slot of some round or have no slot |
| Network.StepKeeps | src/RX/time_table.c:3-117 | every event of the network keeps the invariant on copies, pending TBs, timetables and the log |
| Network.RunKeeps | src/RX/time_table.c:3-117 | so does every run |
| Network.CopiesAgreeWithOriginal | src/RX/time_table.c:108-112 | relay invariance: after any run each copy in flight agrees with one generated TB on type, length, list and timetable |
| Network.CollisionFreedom | src/TX/WF.c:59-80 | in every run, any two slotted transmissions with the same sync come from one round and are apart if they use different slots of it, a lost slot counting as the last; if they use the same, their timetables do not exclude each other |
| Network.OwnSlotsNeverCollide | src/TX/WF.c:59-80 | in every run, transmissions of different nodes with the same sync are apart if both nodes still have their slot |
| Network.SteadyNodesKeepTheirSlot | src/RX/time_table.c:25-56 | a node that every round lists, or none does, never transmits without a slot of its own |
| Network.NeverOverlapExactly | src/TX/WF.c:59-80 | under any two timetables of one round no two transmissions can overlap if and only if they use different slots, a lost slot counting as the last, or transmit never, as a lost slot does within a slot of the epoch |
| Network.SingleRoundNeverCollides | src/TX/WF.c:59-80 | with one generated timetable there is no condition at all |
| Network.NeverDividesByZero | src/TX/WF.c:61 | in no reachable state does the dispatcher of any node divide by zero |
| Network.LosesSlotIff | src/RX/time_table.c:26-50 | a pending timetable loses its slot exactly on a foreign TB that does not list the receiver |
| Network.StaleTable | src/RX/time_table.c:26-50 | a TB that lists a node followed by one that does not installs the first one without a slot |
| Network.StaleTableTakesLastSlot | src/RX/time_table.c:26-50 | that node then transmits exactly when the last node of the first TB does, or never if the round began within a slot of the epoch |
| Collision.HearsAndInstalls | src/RX/time_table.c:3-56 | hearing two TBs and installing is a run of the network whose effect is that of the three handlers |
| Collision.LateTbMakesNodesCollide | src/RX/time_table.c:26-50 | for every master and every two slaves there is a run from fresh nodes in which the slaves collide |
| Membership.LastTbDecides | src/RX/time_table.c:42-116 | over every run in which only TBs move it, a slave is Inside if the last TB of another node lists it and Outside if not |
| Membership.InsideExactly | src/RX/time_table.c:42-116 | in every run of the network, through any number of relays, a slave that starts outside is Inside if and only if the round whose TB it has noticed last lists it |
| Switching.InstalledAfterSync | src/data_structures/time_table.c:56-72 | in every run, what a node has installed it took over when it was pending, at a clock reading after its sync, or had at the start |
| Switching.BlindUntilFirstChangeover | src/TX/WF.c:33-56 | in every run a node transmits blindly if and only if it has not yet gone over to any timetable |
| Switching.ChangesOverAtSync | src/data_structures/time_table.c:56-72 | in passes one after another the dispatcher decides as under the old timetable until one gets the lock after the pending sync, and from then on as under the pending one |
| Switching.ClockDecides | src/TX/WF.c:31-80 | with the lock free, it is the clock alone that decides between the two |
| Switching.SlotSurvivesChangeover | src/RX/time_table.c:26-50 | a TB that leaves the node out after the changeover does not cost it its slot |
| Switching.ApartOnEitherSide | src/TX/WF.c:31-80 | transmissions of nodes that change from one round to the next are apart if both start up to the new sync or both after it, in any passes |
| Switching.ChangeoverCollides | src/TX/WF.c:31-80 | across the new sync they can overlap |
| LargeNetworks.AnswersForPlace | src/RX/time_table.c:28-60 | in every reachable state a slave answers the pending TB if and only if the slave at its position modulo 256 has not been acknowledged, and at a multiple of 256 never |
| LargeNetworks.SilentAt256 | src/RX/time_table.c:58-83 | over every run the node at position 256 gives no TA of its own |
| LargeNetworks.WaitsForEver | src/RX/time_table.c:141-166 | over every run without a TA of a listed node the round does not end |
| Flooding.SentExactly | src/RX/time_table.c:78-113 | a node relays a TB, answers a TB and passes on a TA exactly under the stated conditions, and sends nothing else |
| Flooding.RelayRule | src/RX/time_table.c:78-113 | a TB is relayed if and only if some sub-slave owes a TA and it is the first of a new timetable or ahead by one, or by two if the node itself still owes |
| Flooding.NextTbStopsAtUnacknowledgedNode | src/RX/time_table.c:78-113 | the very next TB of a round is not relayed by a node that answers it |
| Flooding.UnacknowledgedNeverRelays | src/RX/time_table.c:78-113 | a node that hears every sending of a round and is never acknowledged relays nothing, however often the TB is sent again |
| Flooding.WrapForgets | src/RX/time_table.c:82 | at PBID 32767 the bump wraps and nearly every PBID counts as new |
| Flooding.TbStep | src/RX/time_table.c:78-113 | only the first TB of a new timetable lowers a node's TB PBID; every other relay raises it |
| Flooding.TaStep | src/RX/time_table.c:168-185 | only a change of timetable forgets TAs; every TA passed on raises the recorded PBID |
| Flooding.RelayedPbidsIncrease | src/RX/time_table.c:98-113 | from one first TB of a timetable, that one included, to the next, the PBIDs a node relays strictly increase |
| Flooding.SilentUntilPassed | src/RX/time_table.c:98-105 | a node that misses the first TB of a timetable relays nothing, over every run, until the PBIDs have passed its own |
| Flooding.PassedPbidsIncrease | src/RX/time_table.c:168-185 | so do, per originator, those of the TAs it passes on from one change of timetable, that one included, to the next |
| Flooding.TbFloodIsBounded | src/RX/time_table.c:98-113 | in every network run, whatever timetables come and go, a TB PBID is relayed at most once per node that is behind it and once per node that starts with a new timetable |
| Flooding.TimetableFloodIsBounded | src/RX/time_table.c:98-113 | the flood of one timetable, its first TB included, relays each PBID at most once per node, by nodes that had not taken part or were behind |
| Flooding.TaFloodIsBounded | src/RX/time_table.c:168-185 | in every network run the TA of one originator with one PBID is passed on at most once per node that has not seen it and once per change of timetable |
| Flooding.ChangesOncePerNode | src/RX/time_table.c:71-97 | each node changes to one timetable at most once |
| Flooding.TimetableTasAreBounded | src/RX/time_table.c:168-185 | so the TAs that answer one timetable, its first TB included, are passed on at most twice per node |
| RoundTrip.StampIsNothing | src/RX/time_table.c:108-112 | whoever a slave hears a TB from, it does the same with it: the stamp of the relay changes nothing |
| RoundTrip.SendsTb | src/RX/time_table.c:98-113 | a node of the row sends a TB only on hearing it from a neighbour, and then the same TB under its own address |
| RoundTrip.SendsTa | src/RX/time_table.c:78-185 | it sends a TA of the last node only as that node on hearing the TB, with its own PBID, or on hearing that TA from a neighbour, if it lists the last node and has recorded nothing as new |
| RoundTrip.GapForever | src/RX/time_table.c:78-185 | over every run, the TA of the last node does not get to the master past a node that would not relay the TB or does not list the last node, nor if that one would not answer |
| RoundTrip.FloodsDown | src/RX/time_table.c:98-113 | from any node of the row there is a run that takes the TB to the last one, which answers, and changes nothing else in the row |
| RoundTrip.ClimbsUp | src/RX/time_table.c:168-185 | and one that takes its TA to the master |
| TaReturn.HearsAgain | src/RX/time_table.c:78-85 | a node that hears the TB again and again answers each time, with the PBID that it has come to |
| TaReturn.RunTraced | src/RX/time_table.c:78-185 | over every run the TA of the last node gets to the master only with a PBID that it has given and that is above all that the nodes in between had recorded of it |
| TaReturn.TaComesBackExactly | src/RX/time_table.c:52-187 | one sending of a TB can bring the TA of the last node of a row back, whatever is lost or heard again, if that node hears it at most n times, if and only if it answers, all in between relay the TB and list it, and one of its n answers carries a PBID above all that was recorded in between |
| TaReturn.TaComesBackOnce | src/RX/time_table.c:52-187 | if the last node hears the sending once, it is its next PBID that must be above |
| TaReturn.MasterAcknowledges | src/RX/time_table.c:135-166 | over every run the master acknowledges the originators of the TAs that it hears, and nobody else |
| TaReturn.BitClearedExactly | src/RX/time_table.c:135-166 | exactly under the conditions of TaComesBackExactly the bit of the last node in the pending TB can be cleared |
| Sendings.FirstSendingComesBack | src/TX/time_table.c:19-57 | from starting a round to the cleared bit: if the TB is new to a row of slaves that list the last one, the first sending can bring its TA back |
| Sendings.PhaseIsPass | src/TX/retransmission.c:110-120 | what is counted as a sending is a message: the pass that begins a phase queues exactly the TB of that phase, and after the TAs that the master then hears the TB of the next one is pending |
| Sendings.ResendingComesBackExactly | src/RX/time_table.c:78-113 | a later sending, heard once by the last node, can if and only if its PBID is ahead of that of every node in between, by one if the node has been acknowledged and by two if not, and the PBID of the last node is above all that they have recorded of it |
| Sendings.TooFewSendings | src/RX/time_table.c:168-185 | over every run of at most n sendings, each heard at most once by the last node, a node that has recorded of it a PBID that its own does not pass in n sendings swallows all its TAs |
| Sendings.SendingsNeededExactly | src/RX/time_table.c:78-185 | when all nodes are in step with the master and all in between have been acknowledged, n sendings are enough if and only if the PBID of the last node has then passed all that was recorded of it |
| Sendings.LostTasCostTwoSendings | src/RX/time_table.c:78-113 | when all TAs of one sending got lost, one more brings the TA of the last node back in no run, for any length of the row; two can, each heard once, if and only if nobody in between has recorded a TA of it that is not older |
| Sendings.LostFloodLeavesOneBehind | src/RX/time_table.c:78-113 | that is the state in which the first flood leaves the row when all its TAs get lost, with nothing recorded |
| Sendings.SwallowedTaCosts | src/RX/time_table.c:78-105 | a node with sub-slaves answers the first TB of a round with its old PBID p and starts again at 0; if that TA is lost behind a node that recorded it, it takes exactly p + 2 more sendings, though all nodes are in step and relay every TB |
| TaTable.Recorded | src/RX/time_table.c:181-182 | removing the originator and inserting it anew overwrites it |
| TaTable.TableFollows | src/RX/time_table.c:86-97 | emptying, and removing and inserting, keep the PBID table equal to the map of seen TAs |
| TaTable.TableDecidesLikeMap | src/RX/time_table.c:170-185 | after every run the search in the table gives the decision that bounds the flood |
| Retransmission.TimeoutBounds | src/utils/macros.h:7 | a timeout is at least its minimum, and exceeds its maximum only when rand() is RAND_MAX |
| Retransmission.StartConsistent | src/TX/retransmission.c:4-45 | starting keeps bit and message pointer together |
| Retransmission.StopConsistent | src/TX/retransmission.c:46-69 | so does stopping |
| Retransmission.FiredConsistent | src/TX/retransmission.c:94-177 | so does transmitting, including the fifth NE |
| Retransmission.ServesOnlyOne | src/TX/retransmission.c:94-177 | the turn of one kind leaves the others alone |
| Retransmission.StartsOnlyOne | src/TX/retransmission.c:4-45 | starting a kind sets its count to 0, takes the message over, and leaves the others alone |
| Retransmission.PassInOrder | src/TX/retransmission.c:94-177 | a pass is the five turns in the order of the code |
| Retransmission.PassDeadline | src/TX/retransmission.c:94-177 | after a pass an armed kind was armed before, and moved its deadline by its timeout exactly if it was due |
| Retransmission.EarliestBounds | src/TX/retransmission.c:90-180 | the wake-up is at most one check away and never behind a deadline still to come |
| Retransmission.WakesForDeadline | src/TX/retransmission.c:90-180 | the thread wakes for a deadline to come, or after a whole check, and sleeps to the microsecond before it |
| Retransmission.PassSends | src/TX/retransmission.c:94-177 | a pass queues one message for each kind that is armed and overdue, and none for any other, in the order of the code, each as it was pending before the pass |
| Retransmission.TurnTaken | src/TX/retransmission.c:94-177 | each turn finds what it would have found at the start of the pass and completes the same results |
| Retransmission.WakeStaysPunctual | src/TX/retransmission.c:86-181 | firing and sleeping keep every armed deadline within one check of the next wake-up |
| Retransmission.StepStaysPunctual | src/TX/retransmission.c:4-181 | so do arming, the TB start 1 ms ahead, replacing and disarming between passes |
| Retransmission.InitiallyPunctual | src/main.c:189-192 | the thread starts with nothing armed and nothing overdue |
| Retransmission.NeverLate | src/TX/retransmission.c:86-181 | in every reachable state, at a pass no armed deadline is more than DEFAULT_RETRANSMIT_CHECK and the oversleep in the past |
| Retransmission.BitsMatchMessages | src/TX/retransmission.c:4-69 | in every reachable state a bit is set if and only if the message pointer is not NULL, and an armed NE has attempts left |
| Transmissions.OneOfKind | src/TX/retransmission.c:94-177 | of the messages that a pass queues one is of a kind that is armed and overdue, and none of any other |
| Transmissions.StepOfKind | src/TX/retransmission.c:4-177 | between two starts of a kind a message goes out if and only if its deadline has passed, which then moves by a timeout |
| Transmissions.DisarmedIsSilent | src/TX/retransmission.c:46-69 | over every run without a new start, what is not armed is not sent |
| Transmissions.NeverEarly | src/TX/retransmission.c:94-177 | over every run without a new start, n messages of a kind put the clock past its deadline and n - 1 least timeouts, and its deadline has moved by n timeouts |
| Transmissions.StartedIsSlow | src/TX/retransmission.c:4-45 | from the start of a retransmission on, the nth message comes later than n least timeouts |
| Transmissions.BegunIsSlow | src/TX/time_table.c:48-54 | a TB that is begun goes out later than the generation delay, and then at least six seconds apart |
| Transmissions.OftenEnough | src/TX/retransmission.c:86-181 | at every pass the clock is at most one check and the oversleep past the deadline that the messages sent have moved |
| Transmissions.PassCounts | src/TX/retransmission.c:101-171 | a pass counts each kind that it sends, in a byte, and no other |
| Transmissions.NeStep | src/TX/retransmission.c:141-157 | each NE that goes out uses up one of what is left of five attempts |
| Transmissions.FiveNesThenOutside | src/TX/retransmission.c:141-157 | over every run, per arming at most five NEs go out, those sent and those left make up the attempts unless the NE is stopped, and all five sent means disarmed and Outside at the end |
| Retransmitter.RetransmitterObject.constructor | src/main.c:189-192 | nothing armed, no messages |
| Retransmitter.RetransmitterObject.StartRetransmission | src/TX/retransmission.c:4-45 | the whole new state: bit, deadline, message, counter |
| Retransmitter.RetransmitterObject.StopRetransmission | src/TX/retransmission.c:46-69 | bit cleared and pointer dropped, nothing else |
| Retransmitter.RetransmitterObject.FireTb | src/TX/retransmission.c:112-120 | what is queued is the TB before its PBID is counted up in place |
| Retransmitter.RetransmitterObject.FireOther | src/TX/retransmission.c:143-157 | a message is queued and counted; the fifth NE is given up |
| Retransmitter.RetransmitterObject.ServeKind | src/TX/retransmission.c:94-177 | one kind's turn: new state, next wake-up and queued message |
| Retransmitter.RetransmitterObject.RetransmitPass | src/TX/retransmission.c:86-181 | a whole pass: new state, sleep in microseconds, and the queued messages in order |
| Retransmitter.RetransmitterObject.BeginTbTransmission | src/TX/time_table.c:19-57 | start, remake or refuse, with the new TB listing the current slaves; a refusal changes nothing |
| Retransmitter.RetransmitterObject.ScanBitmap | src/RX/time_table.c:157-164 | the early-exit loop decides whether all scanned bytes are zero |
| Retransmitter.RetransmitterObject.TaRxAtMaster | src/RX/time_table.c:137-166 | the bit is cleared in place and the round stopped when the scan is clear |
| TbRound.ScanMeans | src/RX/time_table.c:157-164 | the scan says complete if and only if nobody owes and, when 8 divides the node count, the byte behind the buffer is zero |
| TbRound.MasterStepKeeps | src/TX/time_table.c:19-57 | every event at the master keeps bitmap, list, counter and history in step |
| TbRound.InitiallyMasterInv | src/main.c:158-192 | the master starts in step |
| TbRound.RunKeepsMasterInv | src/TX/time_table.c:19-57 | so does every run |
| TbRound.RunKeepsDistinct | src/utils/list.c:171-194 | no TB of any run lists an address twice among the slaves |
| TbRound.BitmapIsExact | src/RX/time_table.c:141-166 | after any run bit i is set if and only if a slave is listed there that no TA has named since the TB was built |
| TbRound.CompletionIsExact | src/RX/time_table.c:141-166 | a TA ends the round if and only if it is the last one missing, the master does not list itself, and the byte behind the buffer is harmless |
| TbRound.OnlyTasEndRounds | src/RX/time_table.c:166 | nothing but a TA ends a round |
| TbRound.SendsNumberedTb | src/TX/retransmission.c:110-120 | in every reachable state a pass queues the pending TB, and no other, if and only if it is armed and overdue, and its PBID is the number of TBs of the round that have gone out before |
| TbRound.BegunListsEverybody | src/TX/time_table.c:19-57 | whenever beginTBTransmission returns true the pending TB lists every current sub-slave, each owing a TA |
| TbRound.RemadeIff | src/TX/time_table.c:27-47 | it returns true if and only if no round runs or the transmissions since the start fill whole bytes |
| TbRound.UnsentRoundRefuses | src/TX/time_table.c:31-37 | so a later round refuses newcomers before it has been sent once |
| TbRound.SentRoundRemade | src/TX/time_table.c:38-46 | and a round that has been sent is replaced after every 256 transmissions |
| TbRound.StepFrozen | src/TX/time_table.c:27-47 | one step leaves list and core of a running round alone, unless the counter stands at a multiple of 256 |
| TbRound.RoundIsFrozen | src/TX/time_table.c:27-47 | over every run in between, the list and the stamp of a running round do not change |
| Distance.HopBounds | src/utils/equations.c:14 | with loss in [0,1] a hop is never below the neighbour's distance and never beyond UNREACHABLE |
| Distance.HopGrows | src/utils/equations.c:14 | it adds at least one if and only if the link is not clean |
| Distance.HopMonotone | src/utils/equations.c:14 | it is monotone in the distance and in the loss |
| Distance.GetDistanceIsHop | src/utils/equations.c:4-15 | getDistance is such a hop for acceptable losses |
| Distance.InRangeExactly | src/utils/equations.c:14 | the result fits an unsigned short if and only if (1E4 p - 1)(L - D) < 1 |
| Distance.LossyLinkLooksShort | src/utils/equations.c:14 | at a PBE of 2E-4 a neighbour at 40000 seems 25534 away |
| Distance.NextAdvertised | src/data_structures/message_build.c:60-62 | what a node advertises is the path's truncated distance, one hop longer |
| Distance.DistanceIsLoss | src/utils/equations.c:14 | exactly, L - d is L times the product of 1 - x over the path |
| Distance.TruncationError | src/utils/equations.c:14 | after k hops the truncated distance lies in (d - k, d] |
| Distance.AdvertisedIsLoss | src/utils/equations.c:4-37 | so the last node's distance is within k of L times the probability of loss |
| Distance.LoopsNeedCleanLinks | src/utils/equations.c:4-15 | around a routing loop all distances are equal and no link takes a whole unit |
| Distance.LoopsExactly | src/utils/equations.c:4-15 | a ring of next hops is consistent if and only if that is so |
| Routing.AverageBetween | src/data_structures/routing_table.c:31 | a rolled PBE lies between the old and the new one; that it is the mean weighed by size is History.LocalIsMean |
| Routing.PlacedSorted | src/data_structures/routing_table.c:208-268 | inserting keeps the table sorted, in all cases |
| Routing.UpdatedSorted | src/data_structures/routing_table.c:127-272 | so does inserting or updating |
| Routing.TiesGoBehindUnlessSingle | src/data_structures/routing_table.c:223-268 | a new entry goes behind those at its distance, unless there is a single entry, which it precedes |
| Routing.HeardSorted | src/data_structures/routing_table.c:68-83 | hearing a neighbour keeps the order |
| Routing.RollingKeepsOrderExactly | src/data_structures/routing_table.c:23-42 | rolling a PBE in keeps the order if and only if the distance does not change or the neighbours in the table allow it |
| Routing.UpdateRefines | src/data_structures/routing_table.c:127-272 | an update overwrites one neighbour in the map with the merged entry and no other |
| Routing.RemoveRefines | src/data_structures/routing_table.c:311-368 | removing deletes one neighbour and no other |
| Routing.ReplaceRefines | src/data_structures/routing_table.c:68-83 | changing an entry in place changes one neighbour and no other |
| Routes.BestHopIsNearest | src/data_structures/routing_table.c:93-126 | the next hop is a fresh reachable neighbour, and no fresh reachable one is nearer |
| Routes.HopIffUsable | src/data_structures/routing_table.c:93-126 | there is a next hop if and only if some neighbour is fresh and reachable |
| Routes.HopIffFirstFreshUsable | src/data_structures/routing_table.c:93-126 | on any table, sorted or not, there is a next hop if and only if the first neighbour that is not stale is reachable |
| Routes.RestartIffAllStale | src/data_structures/routing_table.c:113-116 | the node shuts down if and only if it had neighbours and all are stale |
| Routes.PruneRefines | src/data_structures/routing_table.c:105-112 | only stale entries are deleted, and the rest stays known |
| Routes.PrunedSorted | src/data_structures/routing_table.c:105-112 | and stays sorted |
| Routes.EntryAtIsWalk | src/data_structures/routing_table.c:380-390 | the entry at a position is what the walk along the list has passed last: none at 0, and the last one for every position that it does not meet |
| Routes.MyDistanceIsLeast | src/utils/equations.c:21-37 | a slave advertises the least distance in its table, or UNREACHABLE without one |
| Routes.NeverBelowNextHop | src/utils/equations.c:21-37 | and not less than its first neighbour had advertised |
| RoutingRuns.HeardRefines | src/data_structures/routing_table.c:68-83 | hearing a neighbour changes its time and nothing else |
| RoutingRuns.PbRefines | src/RX/routing.c:3-76 | a PB keeps the remote PBE of a known sender and starts an unknown one at the worst quality |
| RoutingRuns.SdRefines | src/RX/application.c:33-50 | data adds an unknown sender as unreachable and rolls in the PBE of a known one |
| RoutingRuns.PacketRefines | src/RX/routing.c:3-168 | every packet does to the table what it means for the map of neighbours |
| RoutingRuns.StepSorted | src/RX/routing.c:3-168 | and keeps a sorted table sorted if and only if it is not data that pushes an entry across another |
| RoutingRuns.TableRefinesMap | src/data_structures/routing_table.c:127-272 | after every run there is one entry for each known neighbour, with what is known of it |
| RoutingRuns.SortedExactly | src/data_structures/routing_table.c:127-272 | a sorted table stays sorted after every packet of a run if and only if the run has no such data |
| RoutingRuns.TableIsSorted | src/data_structures/routing_table.c:127-272 | so does the empty one, and without such data it is sorted at the end |
| RoutingRuns.RollingMisleads | src/data_structures/routing_table.c:23-42 | three packets from the empty table, for any two neighbours, after which it is out of order and the farther of two usable neighbours is chosen |
| RoutingRuns.NextHopHasAnswered | src/RX/routing.c:82-168 | a node routes only through a neighbour that has answered it with a PR or PC |
| RoutingRuns.CrashesExactly | src/RX/routing.c:142-160 | a packet makes the code follow a null pointer if and only if it is a PC for this node from a sender without an entry |
| RoutingRuns.CrashesIffUnknown | src/RX/routing.c:142-160 | in every reachable state, if and only if the sender of the PC is not known |
| RoutingRuns.KnownOverRuns | src/RX/routing.c:3-168 | a known neighbour stays known over every run in which no next hop is chosen |
| RoutingRuns.OnlyPruningCrashes | src/RX/routing.c:142-160 | so after a PB, a PR or data from a neighbour its PCs do not crash the node over any such run |
| RoutingRuns.ChoiceCrashesExactly | src/data_structures/routing_table.c:105-112 | after a choice of next hop a PC crashes the node if and only if its sender was unknown or among the stale heads |
| History.Introduced | src/data_structures/routing_table.c:43-67 | what a new neighbour begins with: the distance and PBEs of its packet, and no bytes |
| History.EntryIsWhatWasSaid | src/RX/routing.c:3-168 | over every run the distance, the remote PBE and the time of an entry are what its neighbour said last |
| History.LocalIsMean | src/data_structures/routing_table.c:178-190 | over every run the local PBE times all bytes is the sum of PBE times size, the byte counter is the sum of the sizes, and running over ROLLING_MAX makes the history weigh ROLLING_RESTART bytes |
| History.OrderDoesNotMatter | src/data_structures/routing_table.c:31 | the same packets in another order give the same local PBE |
| History.WorstExactly | src/data_structures/routing_table.c:181 | one packet makes the local PBE the worst if and only if it is heard at the worst and nothing better weighs against it |
| History.NeverWorstAgain | src/data_structures/routing_table.c:178-190 | once something better has been heard of a neighbour, no run makes its local PBE the worst again |
| History.DroppedAfter | src/data_structures/routing_table.c:85-105 | a neighbour that has answered is stale if and only if it has not been heard for more than thirty seconds |
| History.NextHopHeardLately | src/data_structures/routing_table.c:85-126 | in every run a node routes only through a neighbour from which it has a packet at most thirty seconds old |
| RoutingRuns.LateConfirmationCrashes | src/RX/routing.c:144-160 | a reachable state in which that happens |
| RoutingNet.EntryNotTooNear | src/utils/equations.c:4-15 | an entry with an honest distance makes no node nearer than it is, if the link costs at least one unit |
| RoutingNet.StepStaysGood | src/RX/routing.c:3-168 | every PB, PR, PC, data packet and choice of next hop in a network of many nodes keeps all distances honest, those in tables, in PBs and on their way |
| RoutingNet.NobodyIsTooNear | src/RX/routing.c:3-168 | in every run of the whole network, however stale the distances that travel, no node advertises less than the number of hops that it is away from a master, if each link costs at least one unit |
| RoutingNet.TalkRuns | src/RX/routing.c:3-168 | a PB, the PR that answers it and the PC that confirms that give the listener its route, and leave the sender its own |
| RoutingNet.RowSettles | src/RX/routing.c:3-168 | for every row of nodes from a master on there is a run from empty tables after which each has the one before it for its nearest neighbour, with the distance that that one advertises |
| RoutingNet.PerfectLinksLoop | src/data_structures/routing_table.c:127-272 | over links without loss the conversation itself, from empty tables and with the distances that the nodes compute, makes two slaves route through each other, with the master in range of one |
| RoutingTable.Table.SearchByIp | src/data_structures/routing_table.c:296-310 | the walk finds the first entry of the address, and its predecessor |
| RoutingTable.Table.RemoveEntry | src/data_structures/routing_table.c:311-368 | the entry is unlinked and size counted down; true is returned only for the head |
| RoutingTable.Table.FindPlace | src/data_structures/routing_table.c:211-261 | the comparison cases find the specified place |
| RoutingTable.Table.PutInOrder | src/data_structures/routing_table.c:208-268 | the new cell is linked in there |
| RoutingTable.Table.InsertOrUpdate | src/data_structures/routing_table.c:127-272 | the linked list afterwards is the updated table, through the empty, single, head, middle and tail cases |
| RoutingTable.Table.UpdateLastHeard | src/data_structures/routing_table.c:68-83 | one entry's time is overwritten in place |
| RoutingTable.Table.UpdateRollingLocalPbe | src/data_structures/routing_table.c:23-42 | one entry's average is overwritten in place, without moving it |
| RoutingTable.Table.GetEntryByPos | src/data_structures/routing_table.c:370-393 | position 1 is the first entry, 0 gives null, and everything outside gives the last entry |
| RoutingTable.Table.MyDistance | src/utils/equations.c:21-37 | the distance of the first entry, 0 at the master, UNREACHABLE without entries |
| RoutingTable.Table.GetBestHop | src/data_structures/routing_table.c:93-126 | the loop terminates, removes exactly the stale heads, and returns the specified hop |
| Queue.PlaceIs | src/utils/queue.c:40-44 | the place is in front of the first item of lower priority |
| Queue.PacketQueue.FindPlace | src/utils/queue.c:37-44 | the loop stops there |
| Queue.PacketQueue.Put | src/utils/queue.c:46-68 | links the element in and maintains First, Last and Size |
| Queue.PacketQueue.Add | src/utils/queue.c:25-70 | the linked list afterwards is the queue with the item added |
| Queue.PacketQueue.Take | src/utils/queue.c:84-95 | the head is taken and the rest stays in order |
| Queue.AddKeepsOrder | src/utils/queue.c:25-70 | adding keeps highest first and oldest first |
| Queue.StepKeeps | src/utils/queue.c:25-96 | every step of producers and consumers keeps order and conservation |
| Queue.HighestFirstThenOldest | src/utils/queue.c:25-96 | in every interleaving the packet that leaves next has a higher priority than those that stay, or the same and is older |
| Queue.PacketsConserved | src/utils/queue.c:25-96 | added packets are the popped ones plus the queued ones, as multisets |
| Queue.OldestFirst | src/utils/queue.c:25-96 | over every run, a packet that must come first has left whenever the later one has |
| Queue.OneConsumerNeverCrashes | src/utils/queue.c:79-86 | with one consumer the unlocked size test is safe in every run |
| Queue.TwoConsumersCrash | src/utils/queue.c:79-86 | a run in which the second of two consumers follows a null pointer |
| Queue.SafeIffOneConsumer | src/utils/queue.c:79-86 | the test is safe if and only if at most one thread takes from the queue |
| PbidTable.InsertRefines | src/data_structures/pbid_table.c:134-192 | inserting overwrites one address in the map and no other |
| PbidTable.InsertRefinesExactly | src/data_structures/pbid_table.c:134-192 | it does so if and only if the pair is not the pair of zeros |
| PbidTable.ZeroPairHidesTheTable | src/data_structures/pbid_table.c:80-88 | after that pair a concrete table finds nothing any more |
| PbidTable.RemoveRefines | src/data_structures/pbid_table.c:3-56 | removing deletes one address and no other |
| PbidTable.PairSearchAgrees | src/data_structures/pbid_table.c:107-132 | the pair search succeeds if and only if the map holds that PBID |
| PbidTable.TableRefinesMap | src/data_structures/pbid_table.c:3-192 | over every run of inserts, removals and emptyings the table is the map |
| PbidTable.Table.constructor | src/data_structures/pbid_table.c:198-231 | a new table is one cell of zeros |
| PbidTable.Table.InsertPair | src/data_structures/pbid_table.c:134-192 | the loop over IsLastPair terminates, and the list afterwards is the table with the pair inserted |
| PbidTable.Table.Append | src/data_structures/pbid_table.c:174-189 | the flag and the link move to the new last cell |
| PbidTable.Table.Unlink | src/data_structures/pbid_table.c:42-53 | IsLastPair still holds exactly of the last cell |
| PbidTable.Table.Zero | src/data_structures/pbid_table.c:29-40 | the only pair becomes the sign of the empty table |
| PbidTable.Table.RemovePair | src/data_structures/pbid_table.c:3-56 | the list afterwards is the table without the address |
| PbidTable.Table.Search | src/data_structures/pbid_table.c:80-105 | finds the cell of the address, or null exactly when there is none |
| PbidTable.Table.SearchBoth | src/data_structures/pbid_table.c:107-132 | finds a cell with both values, or null exactly when there is none |
| PbidTable.EmptyTable | src/data_structures/pbid_table.c:58-68 | the loop terminates and a new empty table is handed out |
| IpList.ListedSet | src/utils/list.c:171-194 | inserting adds one member and no duplicate |
| IpList.DelistedSet | src/utils/list.c:196-218 | removing takes one member away |
| IpList.ListIsSet | src/utils/list.c:171-218 | over every run the list has the right members, each once |
| IpList.RemovalRace | src/utils/list.c:203-213 | with an insertion between finding and removing, the right address goes if and only if the inserted one was listed already |
| IpList.RemovalTakesTheOther | src/utils/list.c:203-213 | in a list of one, the inserted address goes and the one to be removed stays |
| IpList.AddressList.Contains | src/utils/list.c:150-168 | true exactly for a listed address |
| IpList.AddressList.Insert | src/utils/list.c:171-194 | the list afterwards has the address at its head, unless it was listed |
| IpList.AddressList.Remove | src/utils/list.c:196-218 | the list afterwards lacks the address and keeps its order |
| IpList.AddressList.RemoveFromList | src/utils/list.c:73-109 | walks to the position and removes there; past the end nothing happens, and a negative position removes the second element or follows a null pointer |
| IpList.AddressList.GetAt | src/utils/list.c:129-148 | the address at the position, null outside, and a null pointer followed exactly at position Size |
| Join.StuckWithoutRoute | src/RX/network.c:37-46 | whatever the table, a handler gets no further if and only if it has to pass an NER up and the first neighbour that is not stale is unreachable or missing (on a sorted table: no neighbour is usable), and restarts if and only if besides there were neighbours, all stale |
| Join.NerLostExactly | src/RX/network.c:143-146 | the one NER buffer loses the NER for an outsider if and only if an NEA arrives for any outsider the node was ever proxy for, or an NE makes it proxy for another |
| Join.ListsExactly | src/RX/network.c:3-154 | address by address, which packets make an outsider a slave, an outside slave or pending, and which take it out again |
| Join.HearKeepsNode | src/RX/network.c:3-154 | no handler forgets a slave or an outsider, lists the own address, or leaves a waiting node with its NE |
| Join.HearSends | src/RX/network.c:3-154 | whatever a handler sends is justified by its own lists or by what it heard |
| Join.StepKeeps | src/RX/network.c:3-154 | every event of the network keeps lists and packets justified |
| Join.NobodyIsForgotten | src/RX/network.c:3-154 | in every reachable state an answered outsider is a slave of its proxy, one named in an NEA was answered by a master and is its slave, and a waiting one is somebody's slave and has stopped its NE |
| Join.OwnAddressOnlyByData | src/RX/application.c:33-37 | a node lists itself if and only if it takes data from itself, which SD_RX does not check |
| Join.PassingCostsBreadcrumb | src/RX/network.c:148-152 | an NEA is passed on exactly when a breadcrumb is given up |
| Join.BreadcrumbsConserved | src/RX/network.c:69-154 | over every run, NEAs passed on plus breadcrumbs left are the breadcrumbs there were plus those laid |
| Join.NeaDiesOut | src/RX/network.c:131-154 | so without new breadcrumbs an NEA is passed on at most once per holder |
| Join.Climbs | src/RX/network.c:79-127 | from any node of a row of distinct nodes there is a run that takes the NER to the master, lays a breadcrumb at each node, and makes the master answer |
| Join.Descends | src/RX/network.c:131-154 | and one that takes the NEA down to the proxy, passed on once by each node in between |
| Join.NeaComesBack | src/RX/network.c:69-154 | the two together, if no node in between was once a proxy for the outsider: at the end the proxy has stopped its NER, and as many NEAs were passed on as there are nodes in between |
| Join.SlaveOnlyPassesOn | src/RX/network.c:131-154 | a slave sends an NEA only on hearing one, and never for an outsider it was proxy for |
| Join.BlockedForever | src/RX/network.c:143-146 | over every run in the row, no node up to an old proxy sends the NEA, if no copy that could get past the old proxy is in the air |
| Join.NeaComesBackExactly | src/RX/network.c:69-154 | from every state with an NER of a proxy in the air, and whatever has been sent before, a run in the row in which the proxy's neighbour sends the NEA exists if and only if no node in between was once a proxy for the outsider and has no old NEA of its own or from behind it in the air |
| Join.FirstNeaComesBackExactly | src/RX/network.c:69-154 | so, while no slave of the row has sent an NEA for the outsider, if and only if no node in between was once its proxy, though the master may have answered it before |
| Join.SecondJoinFails | src/RX/network.c:19-154 | for every two slaves and master there is a run from the start in which an outsider is answered through one slave, joins again through the other, and no run brings the NEA back |
| Join.LateNeaDropsNer | src/RX/network.c:143-146 | for every proxy, master and two outsiders there is a run from the start after which a late NEA for one outsider removes the unanswered NER for the other |
| Invitation.StartsWaitingExactly | src/RX/network.c:50-67 | a node starts waiting, with its NE stopped, exactly in the step in which it hears an NEP of another node that names it |
| Invitation.WaitingExactly | src/RX/network.c:50-67 | over every run of the network a node waits at the end if and only if such an NEP has come and nothing else has changed its status since |
| Invitation.AnsweredExactly | src/RX/network.c:3-67 | every NE has a run in which the outsider hears the NEP, waits and is the proxy's slave if and only if the proxy has a next hop, or as the master may begin a TB |
| Invitation.ProxyExactly | src/RX/network.c:37-46 | over every run a node is an outsider's proxy for good if and only if it has, as a slave, heard an NE of it that names it |
| JoinHandlers.JoinerObject.constructor | src/main.c:182-186 | a node before it has taken part in any join |
| JoinHandlers.JoinerObject.SendNer | src/RX/network.c:43-45 | the NER is built, and kept for retransmission at the proxy only |
| JoinHandlers.JoinerObject.PassNerUp | src/RX/network.c:43-45 | getBestHop prunes the table and decides whether the NER goes out, the code crashes, or the node restarts |
| JoinHandlers.JoinerObject.TakeIn | src/RX/network.c:30-36 | the master lists the outsider first and then starts, remakes or refuses a TB; the new TB lists it |
| JoinHandlers.JoinerObject.NeRx | src/RX/network.c:3-49 | NE_RX on the shared lists, retransmissions and routing table has the specified outcome; a master that answers has the outsider in its pending TB |
| JoinHandlers.JoinerObject.NepRx | src/RX/network.c:50-67 | only the addressed outsider stops its NE and starts waiting |
| JoinHandlers.JoinerObject.NerRx | src/RX/network.c:69-129 | NER_RX has the specified outcome; a master that answers has the outsider in its pending TB |
| JoinHandlers.JoinerObject.NeaRx | src/RX/network.c:131-154 | an old proxy stops the one NER and keeps the NEA to itself; another node passes it on against its breadcrumb |
| JoinRoutes.AnsweredExactly | src/RX/network.c:37-127 | while the routing tables and the master's round stand, a run in which all nodes follow them gets an outsider answered if and only if from some NER in the air the best hops lead to a master that may begin a TB |
| JoinRoutes.SettledHop | src/utils/equations.c:21-37 | with current tables and a link that costs at least one unit, the next hop advertises less than the slave |
| JoinRoutes.SettledRow | src/data_structures/routing_table.c:93-126 | so the best hops lead from every node down to a master, over ever smaller distances |
| JoinRoutes.ReturnsAlongExactly | src/RX/network.c:69-154 | along a row of best hops, a run in which all follow their tables brings the NEA back if and only if no old proxy in between blocks it; before any slave has sent one, if and only if no node in between was once a proxy |
| JoinRoutes.SettledJoin | src/RX/network.c:19-154 | in such a network the NER of every proxy climbs along a row of distinct nodes, for which that holds |
| JoinRoutes.MutualNeverAnswers | src/RX/network.c:119-127 | an NER that has got to one of two slaves that route through each other is never answered, over every run |
| JoinRoutes.LoopSwallows | src/RX/network.c:119-127 | so a loop that the routing conversation makes swallows every NER that gets to it |
| JoinRoutes.RowIsSettled | src/data_structures/routing_table.c:93-126 | and the network that RowSettles ends in is one of those that SettledJoin is about |
| JoinRoutes.FirstNeCrashes | src/RX/network.c:37-46 | a slave that has heard one PB from a node that has not answered it follows a null pointer on the first NE that it is asked to take |
| MasterJoin.AnsweredMeansListed | src/RX/network.c:107-118 | an outsider is answered if and only if a TB was started or remade for it, and then the pending TB lists it and asks it for a TA |
| MasterJoin.DeskStepKeeps | src/RX/network.c:107-118 | requests, echoes, data and the round itself keep the answered outsiders listed |
| MasterJoin.InitiallyDeskInv | src/main.c:158-187 | a master that has answered nobody is in step |
| MasterJoin.AnsweredStayListed | src/TX/time_table.c:19-57 | in every reachable state whatever TB is pending lists every outsider the master has ever answered |
| Lifecycle.SlaveObject.constructor | src/RX/routing.c:13 | a slave that has sent no NE has not started to wait |
| Lifecycle.SlaveObject.AskSender | src/RX/routing.c:36-39 | the time is noted, and the NE built and armed |
| Lifecycle.SlaveObject.TakeNeighbour | src/RX/routing.c:44-64 | the table takes the sender in, with the remote PBE that was known, and the answer carries the distance afterwards |
| Lifecycle.SlaveObject.PbRx | src/RX/routing.c:3-76 | PB_RX has the specified outcome in every status |
| Lifecycle.TableStep | src/RX/routing.c:28-64 | to the routing table a PB is the packet of RoutingRuns, with the status for its flag, and leaves each neighbour once |
| Lifecycle.StatusStep | src/RX/routing.c:66-73 | exactly which TB, NEP, PB or fifth NE makes a slave go inside, wait or go outside, and nothing else does |
| Lifecycle.InsideIffListedSince | src/RX/time_table.c:42-116 | over every run a slave is Inside if and only if a TB has listed it, and since then none has left it out, no NEP has named it and it has not sent its fifth NE |
| Lifecycle.WaitingIffInvitedSince | src/RX/network.c:50-67 | over every run it waits if and only if an NEP has named it, and since then it has heard no TB and no PB later than five seconds after its NE |
| Lifecycle.AnswersPbExactly | src/RX/routing.c:30-76 | after every run it answers a PB with a PR, and takes its sender into the table, if and only if it is inside in that sense, and with an NE if and only if it is outside and the sender is not |
| Lifecycle.ListedNodeAnswers | src/RX/routing.c:44-64 | so in every run of the network a slave answers PBs if and only if the round that it has noticed last lists it |
| Lifecycle.TimersPutOut | src/TX/retransmission.c:141-157 | as long as an NE is retransmitted, the timers alone take a slave outside |
| Lifecycle.StaysInsideExactly | src/TX/retransmission.c:149-156 | a slave inside stays there over every run without a TB that leaves it out and without an NEP if and only if it no longer retransmits an NE |
| Lifecycle.ListedButPutOut | src/TX/retransmission.c:149-156 | for every slave, neighbour and TB that lists the slave there is a run after which it is outside nevertheless |
| Lifecycle.StaysStranded | src/RX/routing.c:66-73 | waiting with started_waiting 0, a slave waits for ever over every run without a TB |
| Lifecycle.GivesUpExactly | src/RX/routing.c:66-73 | a waiting slave can get outside without a TB if and only if started_waiting is set |
| Lifecycle.LateNepStrands | src/RX/network.c:58-65 | four packets of any neighbour after which that happens |
| Lifecycle.NepSilencesNe | src/RX/network.c:58-65 | after an NEP that names it a slave sends no NE over any run until it asks anew |

## Left out

- Sockets, ports, threads, signal handling, logging, MAC addresses and the restart itself: no behaviour to prove; the restart is the result `Restart`.
- Clocks and random numbers: parameters of the operations that read them.
- SD payloads, `sendNetStats`, and the fixed-layout builders other than TB: straight copies.
- The PBID that an NEA carries: nothing depends on it.
- Blind transmission before a node has a timetable: the code claims no exclusion there; `Switching.BlindUntilFirstChangeover` says when it ends, and collision freedom speaks of slotted transmissions.
- Transmissions under timetables with different sync: the code does not coordinate the switch from one to the next; `Switching` says what holds on either side of it.
- Floating-point rounding: PBE values and averages are reals, and only the truncation to integers is exact; the conversion of an out-of-range float to `unsigned short`, undefined in C, wraps.
- `DEFAULT_RETRANSMIT_CHECK` is the double `1E9`, so `Act + 1E9` (`src/TX/retransmission.c:90`) is rounded to a multiple of 256 ns at today's clock, and the argument of `usleep` can be one microsecond less than `Earliest` and `Sleep` give; `Retransmission.NeverLate` is not affected.
- `WAITING_TIME_OUT` is the double `5E9`, so the comparison in `PB_RX` (`src/RX/routing.c:67`) is rounded in the same way.
- Memory release and allocation failure: cells that are no longer reachable stay allocated.
- The interleaving of a TA with the retransmission thread: `TA_RX` fetches the TB pointer before it takes the lock and scans after it has released it; here clearing and scanning are one step.
- The unlock of Self.Rt.Lock around giving up the NE: the whole pass is one step.
- `insertInList` away from the head, and `List.Last`: not used by the address lists.
- `pthread_mutex_trylock` in `checkNewTimeTable`: the parameter `busy` of `Dispatch`.
- What lies behind the TB buffer: the parameter `stray` of the completion scan.
- Retransmission.NeverLate: the oversleep of the thread is bounded by a parameter, and no kind's timeout may be shorter than one check and the oversleep, because otherwise the deadline of a message that fires late can fall behind again; with exact sleeps the parameter is zero and all five kinds qualify.
- Network.CopiesAgreeWithOriginal: rounds are told apart by their clock stamps, which are assumed to increase; two rounds in one nanosecond are not modelled.
- Retransmitter.RetransmitterObject.FireOther: messages other than the TB are never written to after they are handed over, and are kept by value.
- Node.NodeObject.TbRx: a buffer shorter than its own count is excluded, since the code does not check it.
- Dispatcher.WakesBeforeTarget: a sleep over 2^32 microseconds is cut off by the argument type of `usleep`, and then ends early.
- Network.OwnSlotsNeverCollide: leaves out nodes that have lost their slot; `Network.CollisionFreedom` includes them.
- Flooding.TbFloodIsBounded: assumes that no bump by a TA runs over the end of the short; `Flooding.WrapForgets` says what happens there. The TA bounds need no such assumption.
- Join.NobodyIsForgotten: assumes that no node takes data from itself; `Join.OwnAddressOnlyByData` says that nothing else breaks it.
- Join.NeaComesBackExactly: that nodes of the row hear the NEA only from their neighbours in the row is part of the statement; which nodes are in radio range of each other is not modelled beyond that.
- The address lists inside `Node` and `JoinHandlers` are sequences; `IpList` proves the linked lists against the same functions.
- The restart in `controlledShutdown` is taken not to return; if replacing the program fails, the code goes on with a null next hop.
- What else changes a node's status while it joins (TB_RX, the waiting timeout, giving up on the NE): the event `Settle` of `Join`, with any outcome but Waiting; `Lifecycle.StatusStep` says what it can be.
- TaReturn.TaComesBackExactly: that nodes of the row hear TBs and TAs only from their neighbours in the row, that of the TBs and of the last node's TAs only those of this sending are in the air, and that no PBID wraps, are part of the statement.
- Sendings.SendingsNeededExactly: what one sending has put in the air is gone by the next, at least six seconds later; the row is among the first 256 nodes of the list, since the position of a later one is truncated to a byte; and the round is not remade meanwhile.
- RoutingNet.NobodyIsTooNear: retransmission timers and the queue are not part of the network; a node may send its PB at any time, and any message may be heard at any time and any number of times.
- JoinRoutes.AnsweredExactly: the tables, the clock readings and the master's round stand still during the run, and the outsider finds no further proxy; what packets do to the tables over time is `RoutingRuns` and `RoutingNet`.
- Membership.InsideExactly: speaks of runs in which nothing but TBs moves the slave; what NEPs, PBs and its own NEs do to it is `Lifecycle.InsideIffListedSince`.
- Lifecycle.SlaveObject.PbRx: the clock is read once for the table, the NE and the waiting time; the PBID table that `PB_RX` fills decides nothing there and is left out.
- History.LocalIsMean: the first packet of a new neighbour sets the PBE and counts no bytes, as in the code; a run in which the counter runs over in between is cut there, and the lemma applies to each part.
