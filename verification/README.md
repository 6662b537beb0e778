# S-Net runtime: a verified model

S-Net runs networks of stream-processing nodes. This project models the protocols and
data structures of its "front" runtime and of its distribution layer in Dafny, and
proves what they promise. Each atomic operation, or each section run under one lock, is
one step of a state machine; what the code does to its own fields and lists is modelled
by classes whose methods are proved to perform exactly those steps.

## The parts

- **Fused sync-star** (`Records`, `Synchrocell`, `StarChain`, `ZipperSpec`, `ZipperRounds`,
  `Zipper`, `ZipperLoss`, `GuardedNode`). The zipper keeps the partial synchrocells of an unbounded chain
  in one grouped list and skips work with masks. `StarChain` is the plain chain, one hop at
  a time; `ZipperSpec` is the zipper on a plain list of cells and its refinement of the
  chain; `ZipperRounds` is its loop, round by round, for all nodes, also those on which it
  does not end; `Zipper` is the linked list with `next`, `same`, `tail` and masks. A record
  that neither a sync nor an exit pattern accepts is dropped by the zipper and travels
  down the chain for ever; in both nothing is emitted and nothing stored, and the
  refinement covers it. The comparison is made up to fresh cells at the end of the list,
  of which an unbounded chain has infinitely many.
- **Work stealing and stream collection** (`Licences`, `LicencePipes`, `Workers`,
  `Fifo`). Read licences sit in tickets: work items, loot, hands. `Licences` has the
  fourteen atomic steps and the invariant, `LicencePipes` the order of records along
  paths through dissolved landings, `Workers` the workers' code. Every method of
  `Workers.Front` records the steps it performs in a ghost history.
- **Remote references** (`References`, `ReferenceTables`): an owner and one remote node
  over two FIFO channels, first for one pointer, then as tables for all pointers.
- **Determinism** (`Determinism`, `DetDelivery`, `DetRuntime`, `DetSeries`, `DetPlaces`,
  `DetOvertaking`): detrefs, nested stacks, collectors. `Determinism` takes records at any
  entry in any order, and says when an entry refuses one; `DetDelivery` says that collectors
  lose none; `DetSeries` adds the streams that connect entries and collectors, in series and
  inside one another, with records that may overtake one another; `DetPlaces` follows each
  record through them, and `DetOvertaking` has the condition on such a plan under which no
  entry ever refuses.
- **Feedback** (`Feedback`, `FeedbackLandings`) and **deterministic feedback**
  (`DripBack`, `DripBackLandings`), both with records that carry detrefs of outer networks
  (`OuterDetrefs`).
- **Input manager** (`InputBuffers`, `InputManager`, `CircularList`), **polling**
  (`StreamPoll`, `BoundedStream`), **box gate** (`BoxGate`).
- **Memory, tables and codecs** (`LutAllocator`, `HashPtr`, `Base64`, `MessageRing`,
  `MessageWriters`, `DesTables`, `Des`, `DesBytes`, `DesStandard`). `DesStandard` is the Data
  Encryption Standard (FIPS 46-3) in its own numbering, and the proof that the tables and the
  program's cipher follow it.

`Options` holds the `Option` type, two functions on sequences and truth values, and two
lemmas for counting records. Pure specifications are functions; the classes follow the C
structures field by field.

## What turned out not to hold

- **Zipper.** When the head cell completes and its merged record matches no exit pattern,
  the loop goes on with `prev == NULL` and replaces the whole list by a fresh matching
  (xzipper.c:169-176; the assertion in line 175 fails there). The cells behind the head
  are forgotten, which the chain would keep. This is
  `ZipperSpec.HeadLoss`; the two may still come out equal, because what is forgotten may be
  something that the chain uses up without a trace (`ZipperLoss.LossWithoutTrace`).
  `ZipperSpec.ZipAgreesExactly` is the exact condition, `ZipperLoss.SecondRecordIsLost` a
  run of three records; `ZipperSpec.MergedExitsRefines` is the refinement, without any
  condition on the run, for nodes and inputs whose merged records leave.
- **A record that all sync patterns accept but no exit pattern** makes the zipper's loop
  run for ever: each fresh matching completes at once. `ZipperRounds.EndsExactly` shows that
  the loop ends unless such a record arrives at the end of the list. The condition to check
  on a node is that of `ZipperRounds.EndsAlways`: it always ends exactly for nodes with
  `StarChain.SyncStar.NoSpin`. The star has the same trouble (`ZipperRounds.ChainSpins`).
- **A record that no pattern accepts** fails the assertion in xzipper.c:180 before it is
  destroyed, because a second fresh matching goes behind the first
  (`ZipperRounds.SecondFreshExactly`).
- **Determinism.** Inside a deterministic network records may overtake one another: in a box
  with several contexts that is not declared deterministic, and in a nondeterministic
  feedback loop, for whose inside the determinism level is zero (xfeedback.c:370), so that no
  entry and no collector restores the order. The assertion in xdet.c:149 can then fail at the
  next entry. `DetSeries.FailsExactly` is the exact condition on a run,
  `DetOvertaking.PlanFailsExactly` the one on the networks, `DetOvertaking.OvertakingFails` a
  run.
- **Remote references.** Of several references that wait for one fetch only the first is
  counted down at the owner (the fetch itself); the others are only counted down at the
  remote node (reference.c:312-319). The owner's entry then stays for ever.
  `References.EntryDroppedExactly` is the exact condition.
- **Deterministic feedback.** A record that is destroyed in the loop as the last holder of
  an outer detref leaves a notice for the outer collector, which fails the assertion in
  xdripback.c:118 when it comes out of the loop. `DripBack.RunIsSafe` shows that nothing
  else fails, `DripBack.OuterNoticeFails` is a run.
- **Feedback.** Of such notices the return landing takes no account (xfeedback.c:244-253 has
  no branch for them), so the outer collector waits for one that never comes.
  `Feedback.DeliveredExactly` is the exact condition, `Feedback.OuterNoticeLost` a run.
- **Message ring.** The writing flag is cleared after the first piece of a part, also when
  the writer still has to wait for room (scc.h:116-129), so that another writer may start
  in between (`MessageWriters.MessagesCanMix`). `MessageWriters.WholeExactly` is the exact
  condition for whole messages.
- **Base64.** `Base64encodeDataType` returns the sum of the characters it writes, not
  their number; `Base64.EncodeDataType` states what it returns. A byte 255 in a file
  reads like the end of the file, because it is compared as a signed character.

## Model

| member | source | states |
|---|---|---|
| ZipperSpec.ZipperRefinesChain | src/runtime/front/xzipper.c:103-186 | on every input sequence on which the zipper forgets nothing that shows (ZipAgreesExactly), it emits exactly the events of a run of the unbounded chain of stars and synchrocells, in the same order, and its list holds that chain's unfinished cells, in order, with the same stored records (up to fresh cells at the end) |
| ZipperSpec.ZipAgreesExactly | src/runtime/front/xzipper.c:157-181 | exact condition for one record, cascades included: zipper and chain agree if and only if the head cell does not complete with a merged record that matches no exit while other cells wait, or this record goes on, in the chain, to complete all of these one after another without leaving and is then stored as the zipper stores it |
| ZipperSpec.ZipAgrees | src/runtime/front/xzipper.c:119-181 | without head loss zipper and chain agree on a record, cascades included |
| ZipperSpec.HeadLossDropsRest | src/runtime/front/xzipper.c:157-181 | with head loss everything that waited behind the head is gone: the list is empty or holds the merged record alone |
| ZipperSpec.LeavesMatching | src/runtime/front/xzipper.c:103-186 | at most one event a record: what leaves, merged or not, matches an exit pattern and its guard; a matching record leaves at once, unchanged; the determinism references that leave or are given up are those of the record that came |
| ZipperSpec.GoesToFirst | src/runtime/front/xzipper.c:119-182 | a record goes to the first cell that takes it, or to a fresh one behind all, or nowhere, and no other cell changes; completing a cell sends out the merged record where it leaves |
| ZipperSpec.MergedGoesOn | src/runtime/front/xzipper.c:165-181 | a merged record that does not leave goes on behind its cell, to the first one there that takes it, or to a fresh one, or nowhere |
| GuardedNode.ChainGuards | src/runtime/front/xstar.c:106-144 | a node with guards in the chain: for every value of a tag, whether the record leaves, is stored or travels on is decided by the exit guard and the sync guard, and without guards it leaves |
| GuardedNode.ZipperGuards | src/runtime/front/xzipper.c:103-186 | the same node and records in the zipper |
| ZipperLoss.SecondRecordIsLost | src/runtime/front/xzipper.c:157-181 | a concrete run of three records after which the zipper has forgotten the second one and the chain still holds it |
| ZipperSpec.MergedExitsLossless | src/runtime/front/xzipper.c:165-171 | for inputs whose merged records always match an exit pattern (merges of cells that can arise: a stored record is accepted by its rule, an empty slot by that of an earlier stored record), no run of such inputs loses anything |
| ZipperSpec.MergedExitsRefines | src/runtime/front/xzipper.c:103-186 | the refinement of the chain for such inputs, from the empty list on, with no condition on the run |
| ZipperSpec.UnionMergedExits | src/runtime/front/xzipper.c:62-100 | it is enough that no input is accepted by two sync patterns and some exit pattern asks for no more than the labels of the sync patterns |
| ZipperLoss.SinglesLoseNothing | src/runtime/front/xzipper.c:103-186 | a node that can lose records refines the chain on all inputs with at most one of its three fields |
| ZipperLoss.LossWithoutTrace | src/runtime/front/xzipper.c:166-176 | a record with head loss after which zipper and chain still agree: the forgotten cell would have been used up without a trace |
| ZipperRounds.EndsExactly | src/runtime/front/xzipper.c:119-182 | for every list and record: the loop ends if and only if no record that all sync and no exit patterns accept arrives at the end of the list; otherwise no number of rounds ends it |
| ZipperRounds.EndsAlways | src/runtime/front/xzipper.c:119-182 | for every node: its loop ends on all lists and records if and only if every record that all sync patterns accept leaves |
| ZipperRounds.SpinExample | src/runtime/front/xzipper.c:119-182 | a node of two patterns and a record on which the loop never ends |
| ZipperRounds.ChainSpins | src/runtime/front/xstar.c:106-144 | the chain has the same trouble: after any number of hops such a record still travels |
| ZipperRounds.RoundsArePass | src/runtime/front/xzipper.c:119-182 | for nodes without such records, the rounds end and do what passing along the cells does, up to fresh cells at the end |
| ZipperRounds.SecondFreshExactly | src/runtime/front/xzipper.c:178-181 | at the end of the list a second fresh matching goes behind the first, against the assertion in line 180, exactly when no sync pattern accepts the record |
| ZipperSpec.ChainPasses | src/runtime/front/xstar.c:106-144 | the chain, hop by hop, does to a record what one pass over its unfinished cells does; completed cells are transparent |
| ZipperSpec.SamePass | src/runtime/front/xzipper.c:119-181 | behind the head of the list, dropping the rest or keeping it makes no difference |
| ZipperSpec.PassTrim | src/runtime/front/xzipper.c:174-181 | fresh cells at the end of the list change neither events nor stored records |
| StarChain.Hop | src/runtime/front/xstar.c:106-144 | one star and one cell: every cell of the chain stays a waiting, sound, properly matched cell |
| StarChain.NobodyTakes | src/runtime/front/xstar.c:113-123 | a record no sync and no exit pattern accepts travels down the chain forever without a visible effect |
| Records.MatchExitPatterns | src/runtime/front/xzipper.c:43-56 | found if and only if for some exit pattern the record has all its labels and passes its guard |
| Zipper.ZipperLanding.NodeZipper | src/runtime/front/xzipper.c:223-254 | a data record leaves through an exit pattern or has, on the flattened list of groups, exactly the effect and the events of the specification Zip |
| Zipper.ZipperLanding.NodeZipperData | src/runtime/front/xzipper.c:103-186 | the loop with its masks has the effect of passing the record along all cells, group by group, and ends, for nodes without a record that all sync and no exit patterns accept (with one it may not end: ZipperRounds.EndsExactly) |
| Zipper.ZipperLanding.Round | src/runtime/front/xzipper.c:119-181 | one round keeps the list and the not-yet-tested mask correct and gets closer to the end |
| Zipper.ZipperLanding.Visit | src/runtime/front/xzipper.c:120-173 | at one group: stored, merged and gone, merged and going on, or passed by, as the specification says |
| Zipper.ZipperLanding.TestPatterns | src/runtime/front/xzipper.c:120-131 | a slot changes exactly where it was unmatched, the record has all labels of its pattern and the guard holds; the matching is then the filled cell, and every pattern no longer marked untested is known to reject the record |
| Zipper.ZipperLanding.SplitOff | src/runtime/front/xzipper.c:133-140 | the head leaves its group, and the rest becomes a group of its own behind it; no cell changes place |
| Zipper.ZipperLanding.Regroup | src/runtime/front/xzipper.c:132-155 | after a match the list is again one of groups of cells with equal masks, in unchanged order |
| Zipper.ZipperLanding.Join | src/runtime/front/xzipper.c:143-155 | a matching joins the previous group without changing the order of cells |
| Zipper.ZipperLanding.Unlink | src/runtime/front/xzipper.c:159-164 | exactly one cell leaves the flattened list |
| Zipper.ZipperLanding.Fire | src/runtime/front/xzipper.c:158-164 | a complete matching gives its merged record and leaves the list, all others stay as they are |
| Zipper.ZipperLanding.MergeFromStorage | src/runtime/front/xzipper.c:62-100 | the merged record is the one the synchrocell would make |
| Zipper.ZipperLanding.Next | src/runtime/front/xzipper.c:174-181 | the cursor moves behind the whole group, or a fresh matching is appended (from an empty list after a merge at the head) |
| Synchrocell.SyncLanding.NodeSyncData | src/runtime/front/xsync.c:160-183 | forwarded untouched, kept, or answered with the merged record, depending exactly on whether an unmatched pattern takes it and on whether that completes the cell |
| Synchrocell.SyncLanding.MatchPatterns | src/runtime/front/xsync.c:100-135 | a slot changes exactly where it was unmatched, the record has all labels of its pattern and the guard holds; the record sits in the first of these, once; the match count is right |
| Synchrocell.SyncLanding.MergeFromStorage | src/runtime/front/xsync.c:51-84 | all slots are merged into the first record and emptied |
| Synchrocell.MergedLabels | src/runtime/front/xsync.c:51-84 | flow inheritance: which labels the merged record has, in both directions |
| Synchrocell.MergedFieldValue | src/runtime/front/xsync.c:51-84 | a field has the value of the last stored record whose pattern names it |
| Synchrocell.MergedTagValue | src/runtime/front/xsync.c:51-84 | the same for tags |
| Synchrocell.FirstValueStays | src/runtime/front/xsync.c:51-84 | a label that no later stored record shares with its pattern keeps the first record's value, and binding tags always do |
| Synchrocell.MergedMatches | src/runtime/front/xsync.c:51-84 | a merged record has the fields and tags of every sync pattern whose record was stored, and the binding tags of the first record only; it matches such a pattern exactly when the first record has the pattern's binding tags |
| Synchrocell.CountComplete | src/runtime/front/xsync.c:160-183 | the match count reaches the number of patterns exactly when no slot is unmatched |
| Synchrocell.FillKeepsSound | src/runtime/front/xsync.c:100-135 | the first matched slot of a cell always holds a record, so a complete cell can be merged |
| Synchrocell.FillMeans | src/runtime/front/xsync.c:100-135 | what offering a record does to a slot, on labels and guards: it changes if and only if it is unmatched, the record has all labels of the pattern and passes the guard; the first that changes holds the record |
| LicencePipes.RunIsSafe | src/runtime/front/xworker.c:217-520 | in every reachable state, under any interleaving of writes, work, steals and loots: the records queued in a stream are as many as the licences of all tickets that forward to it; reference counts are exact; a worker with a licence in hand finds a record; a closed descriptor has no end, licence, worker or record left |
| LicencePipes.RunIsFifo | src/runtime/front/xstream.c:37-142 | whoever steals what and however many landings in a row are dissolved: what a node writes reaches the working landing in the order written, none lost, none twice, behind what was on its way |
| LicencePipes.PipeDissolve | src/runtime/front/xstream.c:37-83 | dissolving an identity landing changes no path: the writer finds behind its new end exactly what was behind the old one |
| LicencePipes.PipeWrite | src/runtime/front/xstream.c:86-115 | a record put into a stream arrives behind all others on every path that leads through it |
| LicencePipes.PipeFetch | src/runtime/front/xstream.c:118-142 | a dequeue takes the oldest record of every path that ends there |
| Licences.StepKeepsInv | src/runtime/front/xworker.c:217-306 | all fourteen atomic steps keep the licence equation, the reference equation and the locks' and hands' invariants |
| Licences.ReadingNonEmpty | src/runtime/front/xstream.c:118-123 | a licence taken for reading means a non-empty stream |
| Licences.Unreferenced | src/runtime/front/xstream.c:161-182 | a descriptor without references has no writer, no worker, no record and no licence passing it |
| Licences.DissolveKeeps | src/runtime/front/xstream.c:37-83 | merging queue, references and source of a dissolved landing keeps the invariant |
| Licences.ReapKeeps | src/runtime/front/xgarbage.c:12-21 | closing a descriptor and letting go of the next one keeps the invariant |
| Licences.RedirectedSums | src/runtime/front/xgarbage.c:32-58 | when a landing becomes garbage, exactly its licences move over to the next stream |
| Licences.EndLive | src/runtime/front/xident.c:30-53 | an open end never leads to a dissolved or closed descriptor |
| Licences.LicenceLive | src/runtime/front/xworker.c:232-268 | a licence keeps its descriptor from closing |
| Workers.StealEvens | src/runtime/front/xworker.c:410-448 | a theft evens out: victim and thief end at most one licence apart, a richer thief takes none, a thief without an item always gets some |
| Workers.Front.WorkItem | src/runtime/front/xworker.c:217-306 | work on an item performs only machine steps, brings it to the end of the garbage chain, and takes the oldest record there, or tells that nothing could be done and changes nothing |
| Workers.Front.ClearWay | src/runtime/front/xworker.c:225-293 | the item gets past dissolved landings and joins the worker's item there; free only if the landing's lock is |
| Workers.Front.ForwardItem | src/runtime/front/xworker.c:232-283 | all licences of a dissolved descriptor end up in one item for the descriptor it forwards to |
| Workers.Front.AdvanceItem | src/runtime/front/xworker.c:248-268 | a chain of dissolved landings is followed to its end and unlocked items on the way are taken along |
| Workers.Front.HopItem | src/runtime/front/xworker.c:232-246 | one hop moves the item one landing on and gives up its references there |
| Workers.Front.UseLicence | src/runtime/front/xworker.c:295-302 | one licence is used and the record dequeued is the oldest of the stream, which is not empty |
| Workers.Front.Dequeue | src/runtime/front/xstream.c:118-142 | with a licence taken, the stream holds a record, and the first one is returned |
| Workers.Front.Todo | src/runtime/front/xworker.c:184-204 | a licence is added to the worker's one item for the descriptor, or becomes it |
| Workers.Front.StealVictim | src/runtime/front/xworker.c:401-450 | the first stealable item of the victim's list is found, or there is none, and exactly the computed amount moves into the loot |
| Workers.Front.TakeHalf | src/runtime/front/xworker.c:408-447 | licences are split, none lost and none made |
| Workers.Front.AddLoot | src/runtime/front/xworker.c:479-492 | all loot is added to the thief's own item before anything else happens |
| Workers.Front.EnterLoot | src/runtime/front/xworker.c:493-514 | loot becomes an item of the hash table and stays there just as long as licences are left in it |
| Workers.Front.MergeStreams | src/runtime/front/xstream.c:37-83 | performs the dissolving step, and the writer holds the next stream's end afterwards |
| Workers.Front.MergeQueues | src/runtime/front/xstream.c:41-66 | queue, references and ends of the merged stream, exactly |
| Workers.Front.Write | src/runtime/front/xstream.c:86-115 | an identity landing in front is dissolved exactly when its lock is free; the record is queued with a licence, or handed over with the oldest record coming back on a last write |
| Workers.Front.PutAndGet | src/runtime/front/xstream.c:105-110 | the record handed back is the oldest of queue and new record |
| Workers.Front.PutRecord | src/runtime/front/xstream.c:111-114 | the record is queued last and its licence entered |
| Workers.Front.CloseUnreferenced | src/runtime/front/xstream.c:161-182 | closing follows the chain of landings behind a closed descriptor to its end |
| Workers.Front.CloseOne | src/runtime/front/xgarbage.c:12-21 | one descriptor closes and the next one is released |
| Fifo.Queue.Put | src/runtime/front/xfifo.c:48-58 | one item more, at the end |
| Fifo.Queue.Get | src/runtime/front/xfifo.c:61-74 | the first item, or none if and only if the queue is empty |
| Fifo.Queue.PutGet | src/runtime/front/xfifo.c:77-96 | put and get in one: same result as putting first, with the same nodes |
| Fifo.Queue.GetTail | src/runtime/front/xfifo.c:132-146 | everything behind the head is detached as a linked chain with both ends known |
| Fifo.Queue.PutTail | src/runtime/front/xfifo.c:149-157 | the chain's items follow the queue's |
| Fifo.Queue.PeekFirst | src/runtime/front/xfifo.c:99-109 | the oldest item, or none |
| Fifo.Queue.PeekLast | src/runtime/front/xfifo.c:112-115 | the youngest item, or none |
| Fifo.Queue.NonEmpty | src/runtime/front/xfifo.c:125-129 | true if and only if an item is there |
| Fifo.Merge | src/runtime/front/xstream.c:46-56 | one queue behind the other, the first one empty, and the count is the number of moved items |
| References.EntryDroppedExactly | src/distrib/common/reference.c:102-331 | when nothing refers to the data any more, the owner has dropped its entry if and only if no fetch had several references waiting for it |
| References.LeakExactly | src/distrib/common/reference.c:153-191 | what the owner's count exceeds all references by grows on a run if and only if some fetch has several waiters |
| References.TwoWaitersLeak | src/distrib/common/reference.c:306-331 | a concrete run with two waiters for one fetch that leaves the owner with an entry for ever |
| References.RunIsSafe | src/distrib/common/reference.c:102-331 | no run ever misses an entry at either side, and every answer has the data of the very object that was asked for, also when the pointer is used again |
| References.RequestsAnswered | src/distrib/common/reference.c:153-191 | conservation on every run: what was asked for is what was answered, plus what still waits, request by request; and nothing waits when nothing is under way |
| References.CanAnswer | src/distrib/common/reference.c:102-331 | no request waits for good: from every state the messages under way, received one by one, bring all answers |
| References.DataStays | src/distrib/common/reference.c:173-190 | data that has come stays while references are left, and asking again takes it without another fetch |
| References.StepKeepsInv | src/distrib/common/reference.c:102-331 | owner's count plus pending updates equals the remote count plus references in flight plus the leak; every pending message finds its entry |
| References.DroppedEntry | src/distrib/common/reference.c:293-304 | the owner drops its entry only when nothing is left but the data on its way to a last waiter |
| References.TotalStays | src/distrib/common/reference.c:293-304 | with all messages in, the owner's count is not negative |
| ReferenceTables.Tables.OwnerHandles | src/distrib/common/imanager.c:241-250 | updates, fetches and returned references at the owner are the protocol's step |
| ReferenceTables.Tables.TakeData | src/distrib/common/reference.c:153-191 | asking for data fetches it once, waits, or takes it from the cache, as the protocol says |
| ReferenceTables.Tables.SetData | src/distrib/common/reference.c:306-331 | all waiters, each one, are answered with the data and counted down, and the data stays for the references that are left |
| ReferenceTables.Tables.AnswerWaiters | src/distrib/common/reference.c:312-319 | as many answers as waiters: answer i is for waiter i and has the data; each counts one down |
| Determinism.OrderRestored | src/runtime/front/xdet.c:164-273 | on every run of nested networks that goes through: records leave a collector in the order of the detrefs they drew on entry (deterministic), and where records have met the entry in outer order they leave in outer order |
| Determinism.WaitsForEarlier | src/runtime/front/xdet.c:164-221 | a queued record waits only while one of an earlier input is to come, or the news that none is; where only outer determinism counts, that one has a smaller outer number, so records with the same one never wait for each other |
| DetDelivery.AllEmitted | src/runtime/front/xdet.c:224-273 | conservation on every run, for every collector and detref: what has been emitted for it and what is queued with it are the records that left with it, each once, in their order; with nothing under way all are emitted |
| DetDelivery.DequeueMoves | src/runtime/front/xdet.c:164-221 | whatever dequeuing forwards and frees, no record is lost, doubled or overtaken by one of the same detref |
| Determinism.KeyIsOuterNumber | src/runtime/front/xdet.c:92-124 | the number a record leaves with for the outer network is the one on top of its stack below its detref |
| Determinism.CountIsHolders | src/runtime/front/xdet.c:42-124 | a detref counts one more than the records that hold it until the last of them goes, then one until that is announced, then none |
| Determinism.NothingStuck | src/runtime/front/xdet.c:164-221 | with no record and no notice left, every queued record has been emitted and the detref queue is empty |
| Determinism.RunIsSafe | src/runtime/front/xdet.c:42-273 | a run fails if and only if an entry that only supports outer determinism refuses a record, which has no detref or an outer number below the last one's; no detref is used after the collector has freed it, and no other check fails |
| Determinism.StepKeepsInv | src/runtime/front/xdet.c:42-273 | each operation keeps counts, queues, numbers and logs consistent, and fails exactly where such an entry refuses a record |
| Determinism.DequeueKeeps | src/runtime/front/xdet.c:164-221 | dequeuing ends with a first detref still in use and nothing queued that could go |
| Determinism.FlushEqualKeeps | src/runtime/front/xdet.c:206-220 | equal numbers behind the first detref are forwarded too, and nothing else |
| Determinism.HeldInUse | src/runtime/front/xdet.c:66-89 | a detref on some record's stack has not been freed |
| DetSeries.FailsExactly | src/runtime/front/xdet.c:127-161 | networks in series and inside one another, to any depth, on every run, whatever records overtake one another: the run fails if and only if a record comes to the entry of a network that is not deterministic with a smaller number than the last one (the check in line 149), and no other check fails |
| DetPlaces.EachHasItsPlace | src/runtime/front/xdet.c:127-273 | on every run of connected networks: each record that came in or was created is on one stream or queued at one collector, and nowhere else, unless it was destroyed |
| DetOvertaking.PlanFailsExactly | src/runtime/front/xdet.c:127-161 | for every plan of streams and gates and every set of streams on which records may overtake: some run fails if and only if a network that is not deterministic reads from a stream that lies, within the network around it, behind such a stream; entries number afresh and collectors restore the order |
| DetOvertaking.OvertakingFails | src/runtime/front/xbox.c:88-147 | a concrete run: a box with several contexts that is not declared deterministic lets two records change places, and the assertion at the next entry (xdet.c:149) fails; on no other stream of these networks overtaking matters |
| DetSeries.CalmOrder | src/runtime/front/xdet.c:127-221 | where no record overtakes one with another number on a set of streams closed under their feeders in the same network: entries reading from them are met in order, collectors of such networks emit in the order of the network around, and records stay in order there |
| DetSeries.AllDeterministic | src/runtime/front/xdet.c:133-138 | where all networks are deterministic themselves no run fails, whatever overtakes |
| DetSeries.OrderKept | src/runtime/front/xdet.c:127-161 | the case without overtaking: no check fails, every entry is met in order, every collector emits in the order of the network around it, and every stream stays in that order |
| DetSeries.StepKeepsInv | src/runtime/front/xdet.c:42-273 | each step of the connected networks fails exactly where the check in line 149 does, and keeps records in one place each and inside their network, whatever overtakes; and in order on calm streams |
| DetSeries.MayEnter | src/runtime/front/xdet.c:143-160 | the first record on its way to an entry along a calm stream passes the check, with a number not below the last one that entered |
| DetSeries.EmitKeeps | src/runtime/front/xdet.c:164-221 | what a collector emits stays in its network and goes behind what was put out before; on a calm stream it fits there in order |
| DetSeries.DequeuePours | src/runtime/front/xdet.c:164-221 | dequeuing moves each queued record to the output once, and no other record |
| DetRuntime.Runtime.RecDetrefCopy | src/runtime/front/xdet.c:42-63 | the copy holds the same stack, every count on it goes up by one and no other count |
| DetRuntime.Runtime.RecDetrefDestroy | src/runtime/front/xdet.c:66-89 | all detrefs are given up from the top, each last one is announced |
| DetRuntime.Runtime.DropTop | src/runtime/front/xdet.c:68-88 | one detref comes off the stack and is counted down; with its last holder it goes to zero and its collector is told, and otherwise nobody is |
| DetRuntime.Runtime.DetEnter | src/runtime/front/xdet.c:127-161 | refuses exactly a record without a detref or with a number below the last one at an entry that is not deterministic; otherwise the record has one detref more, counted twice, with the next number (or the last one again, where the outer number is the same), and it joins the collector's queue |
| DetRuntime.Runtime.LeaveRec | src/runtime/front/xdet.c:224-273 | the record gives up its top detref only, queues with it, and whatever may go is output |
| DetRuntime.Runtime.LeaveDequeue | src/runtime/front/xdet.c:164-221 | performs exactly the specified dequeue |
| DetRuntime.Runtime.ForwardEqual | src/runtime/front/xdet.c:206-220 | performs exactly the specified flush of equal numbers |
| DetRuntime.Runtime.ForwardQueued | src/runtime/front/xdet.c:186-189 | a detref's queued records are output oldest first |
| DetRuntime.Runtime.DetrefNotice | src/runtime/front/xcoll.c:46-53 | a notice makes the collector output what may go now |
| DripBack.OneAtATime | src/runtime/front/xdripback.c:41-170 | in every state a run reaches: one outside record's descendants in the loop at a time, outputs in input order, queued work has a busy loop or a wakeup under way, and the loop ends only idle and with nothing queued; a run goes through unless a record destroyed in the loop was the last holder of an outer detref |
| DripBack.NothingLost | src/runtime/front/xdripback.c:41-170 | conservation on every run: what has come in or been created is queued, in the loop, or has gone out, each once, but for records destroyed in the loop; what goes out are the outside records that do not match, the outer announcements, and each record that leaves the loop |
| DripBack.CanEnd | src/runtime/front/xdripback.c:41-170 | from every state steps without new input and without loss lead to the end: everything queued has its turn, the loop is empty, and it terminates if it was ever woken |
| DripBack.DrainsCompletely | src/runtime/front/xdripback.c:41-170 | once the access landing has closed and nothing is under way, nothing is queued and the loop has terminated; a run goes through unless a record destroyed in the loop was the last holder of an outer detref |
| DripBack.RunIsSafe | src/runtime/front/xdripback.c:41-170 | a run fails exactly where an outer network's announcement comes out of the loop, and goes through with none left inside if and only if no record destroyed in the loop was, here or elsewhere, the last holder of an outer detref |
| DripBack.OuterNoticeFails | src/runtime/front/xdripback.c:110-119 | a concrete run that fails: one record with an outer detref that no other holds enters the loop and is destroyed there |
| DripBack.StepKeepsInv | src/runtime/front/xdripback.c:41-170 | each step keeps the invariant, with counters of outer detrefs at least one above their holders in the loop; exactly an announcement that has come up inside fails (line 118) |
| DripBack.ProceedKeeps | src/runtime/front/xdripback.c:133-155 | going on with the queue stops with a busy loop or with nothing queued, and never admits into a busy loop |
| DripBackLandings.Landings.Access | src/runtime/front/xdripback.c:41-53 | undisturbed, the access landing queues, counts and wakes if the count was zero |
| DripBackLandings.Landings.HandleControl | src/runtime/front/xdripback.c:98-108 | performs the step for a wakeup or for the end of the access landing |
| DripBackLandings.Landings.HandleReturn | src/runtime/front/xdripback.c:62-96 | performs the step for a record that comes out of the loop |
| DripBackLandings.Landings.GoOn | src/runtime/front/xdripback.c:133-155 | takes queued records one by one until the loop is busy or the queue is empty |
| DripBackLandings.Landings.Conclude | src/runtime/front/xdripback.c:133-169 | goes on with the queue and terminates if it may |
| DripBackLandings.Landings.CheckBusyLoop | src/runtime/front/xdripback.c:15-31 | spent detrefs are popped; busy if and only if one is left |
| DripBackLandings.Landings.FeedbackLeave | src/runtime/front/xfeedback.c:63-112 | for a loop with one detref: counted down, to zero with the last |
| Feedback.EndsOnce | src/runtime/front/xfeedback.c:135-277 | on every run, outer announcements included, the loop terminates at most once, only with the access landing closed, no detref and no record left, and it does terminate when nothing is under way |
| Feedback.NothingLost | src/runtime/front/xfeedback.c:135-242 | conservation on every run: an outside record that does not match goes out, once; one that matches, or was created inside, is in the loop with its detrefs, or was destroyed, or went out, once, when it came back without matching |
| Feedback.CanEnd | src/runtime/front/xfeedback.c:135-277 | from every state steps without new input and without loss lead to the end: all records leave, no detref is left, and the loop terminates if any record ever entered |
| Feedback.ReturnDecides | src/runtime/front/xfeedback.c:219-242 | a record that comes back leaves, once, with one holder of its detref less, exactly when it does not match; a matching one leaves loop, detrefs and all else as they are |
| Feedback.EndIsFinal | src/runtime/front/xfeedback.c:212-217 | after the end no record comes to the return landing and none comes from outside |
| Feedback.RunIsSafe | src/runtime/front/xfeedback.c:63-277 | every record that leaves finds its detref and no other check fails, on every run, with records from outside that match or not |
| Feedback.DeliveredExactly | src/runtime/front/xfeedback.c:244-253 | an outer detref nobody holds any more has its announcement sent on if and only if its last holder was not destroyed in this loop; otherwise it is inside the loop or dropped, and never sent |
| Feedback.OuterNoticeLost | src/runtime/front/xfeedback.c:244-253 | a concrete run: the announcement of a record destroyed in the loop is dropped |
| Feedback.StepKeepsInv | src/runtime/front/xfeedback.c:63-277 | counts equal holders plus one, detrefs stay in entry order, outer counters stay above their holders in the loop, and each outer announcement is in exactly one place |
| FeedbackLandings.Landings.FeedbackLeave | src/runtime/front/xfeedback.c:63-112 | finds the detref in the queue, counts it down and pops those spent in front |
| FeedbackLandings.Landings.FeedbackCheckBusy | src/runtime/front/xfeedback.c:115-132 | pops spent detrefs, and a draining loop without any is to terminate |
| FeedbackLandings.Landings.ReturnRecord | src/runtime/front/xfeedback.c:219-242 | performs the step of a record that comes back: a matching one changes nothing, another one leaves (Feedback.ReturnDecides) |
| FeedbackLandings.Landings.ReturnLastCall | src/runtime/front/xfeedback.c:244-253 | performs the step that starts draining |
| InputBuffers.DeliveredInOrder | src/distrib/common/imanager.c:84-184 | for every destination and run: read, in the stream, and in the overflow list, one after the other, are exactly what arrived |
| InputBuffers.NothingLost | src/distrib/common/imanager.c:143-184 | the history of a destination is what the run brings for it, so that read, streamed and overflown are these records in order, and a freed buffer's reader has got them all |
| InputBuffers.CanDeliver | src/distrib/common/imanager.c:84-184 | from every state reads, their callbacks and updates alone deliver all that has arrived for a destination, unblock its senders, and free its buffer after a termination |
| InputBuffers.NothingStuck | src/distrib/common/imanager.c:110-133 | while records have overflown, the stream holds some, or a callback is still to run, or the buffer is queued exactly once for an update under way; senders are blocked exactly while there is an overflow |
| InputBuffers.RunIsSafe | src/distrib/common/imanager.c:84-184 | every run goes through |
| InputBuffers.StepKeepsInv | src/distrib/common/imanager.c:84-184 | each step keeps counters and lists consistent |
| InputManager.Manager.UpdateBlocked | src/distrib/common/imanager.c:110-133 | performs the step that refills all waiting buffers |
| InputManager.Manager.Refill | src/distrib/common/imanager.c:118-129 | moves overflown records until the stream is full and tells the senders when none is left |
| CircularList.List.AppendStart | include/list-template.c:117-138 | one element more, in front, growing if full |
| CircularList.List.AppendEnd | include/list-template.c:140-160 | one element more, at the end, growing if full |
| CircularList.List.PopStart | include/list-template.c:162-169 | the first element is taken |
| CircularList.List.PopEnd | include/list-template.c:171-177 | the last element is taken |
| CircularList.List.Get | include/list-template.c:202-207 | the element at a position, counted from the start |
| CircularList.List.Unroll | include/list-template.c:117-138 | growing keeps the elements in list order |
| CircularList.List.constructor | include/list-template.c:34-52 | an empty list |
| StreamPoll.NoLostWakeup | src/threading/pthread/stream.c:229-324 | a consumer that waits without a wakeup has found every polled stream empty and is registered with it, so that the next write to any of them wakes it |
| StreamPoll.PollReturnsItem | src/threading/pthread/stream.c:229-324 | every poll returns one of its streams that holds an item, across repeated polls and stale wakeups |
| StreamPoll.RunIsFifo | src/threading/pthread/stream.c:133-324 | whatever polls and wakeups do: what the consumer reads from a stream and what it holds are what producers wrote, in order |
| StreamPoll.PollEnds | src/threading/pthread/stream.c:229-324 | no poll hangs while one of its streams holds an item: from every state the consumer's own sections, each of which may run, bring it to its end |
| StreamPoll.StepKeepsInv | src/threading/pthread/stream.c:178-324 | each step of producers and consumer keeps registrations and wakeups consistent |
| BoundedStream.Stream.Write | src/threading/pthread/stream.c:178-208 | the item is appended; a registered consumer is woken unless it is being woken already; the registration is gone |
| BoundedStream.Stream.TryWrite | src/threading/pthread/stream.c:210-225 | appended if and only if there is room, with the same wakeup and registration as a write; otherwise nothing changes |
| BoundedStream.Stream.Read | src/threading/pthread/stream.c:133-159 | the oldest item is taken |
| BoundedStream.Stream.Peek | src/threading/pthread/stream.c:163-176 | the oldest item, if there is one |
| BoxGate.GateIsSafe | src/runtime/front/xbox.c:101-189 | under every interleaving: at most the limit of invocations, a context of its own for each, the lock released only when held, and at rest held exactly when the box is full |
| BoxGate.RunIsSafe | src/runtime/front/xbox.c:101-189 | every worker finds a context and every release is of a held lock |
| BoxGate.CanEnter | src/runtime/front/xbox.c:88-147 | nobody is kept out for good: from every state, whatever the others are doing, there are turns after which a given worker runs the box |
| BoxGate.StepKeepsInv | src/runtime/front/xbox.c:101-189 | each atomic operation keeps contexts, counter and lock consistent |
| BoxGate.Landing.Claim | src/runtime/front/xbox.c:101-115 | performs slot + 1 operations: contexts are looked at one by one and the first unused one is marked |
| BoxGate.Landing.Enter | src/runtime/front/xbox.c:101-147 | performs slot + 3 operations of the machine: the first unused context is found and marked, the worker counted in, and the lock let go below the limit |
| BoxGate.Landing.Leave | src/runtime/front/xbox.c:173-189 | performs two operations of the machine, or three in a full house, where the lock is let go |
| LutAllocator.Table.MallocLut | src/distrib/scc/sccmalloc.c:178-207 | first fit, or nothing and no change; the table stays exactly tiled by blocks whose first and last tags agree, no two free ones side by side |
| LutAllocator.Table.FreeLut | src/distrib/scc/sccmalloc.c:209-224 | the block is joined with its free neighbours on both sides and the tiling kept |
| LutAllocator.Table.constructor | src/distrib/scc/sccmalloc.c:89-94 | one free block of the size of the table |
| LutAllocator.ReleaseUndoesTake | src/distrib/scc/sccmalloc.c:178-224 | freeing what was allocated restores the block list |
| LutAllocator.AllFree | src/distrib/scc/sccmalloc.c:209-224 | when everything is free there is one block of the whole size |
| LutAllocator.Disjoint | src/distrib/scc/sccmalloc.c:178-224 | blocks never overlap and stay inside the table |
| LutAllocator.TakenKeeps | src/distrib/scc/sccmalloc.c:188-203 | allocation keeps the block list canonical and its total size |
| LutAllocator.ReleasedKeeps | src/distrib/scc/sccmalloc.c:209-224 | freeing keeps the block list canonical and its total size |
| LutAllocator.FirstFit | src/distrib/scc/sccmalloc.c:182-187 | the block found fits and no earlier one does |
| HashPtr.HashTab.Store | src/runtime/front/xhashptr.c:161-189 | the table is the old map with one key more; node count, free-list count and the growth by three powers are exact |
| HashPtr.HashTab.Remove | src/runtime/front/xhashptr.c:206-244 | the table is the old map without the key; the free list is trimmed to an eighth of the table when it gets above a quarter |
| HashPtr.HashTab.Resize | src/runtime/front/xhashptr.c:127-156 | rehashing into another size loses and changes no entry |
| HashPtr.HashTab.Lookup | src/runtime/front/xhashptr.c:192-203 | what the map has for the key |
| HashPtr.HashTab.First | src/runtime/front/xhashptr.c:261-272 | the first key in table order |
| HashPtr.HashTab.Next | src/runtime/front/xhashptr.c:275-297 | the key after a stored key in table order, or none after the last |
| HashPtr.HashTab.Empty | src/runtime/front/xhashptr.c:247-258 | true if and only if no key has a value |
| HashPtr.HashTab.constructor | src/runtime/front/xhashptr.c:72-93 | a table without keys, of the nearest allowed size |
| HashPtr.WalkVisitsOnce | src/runtime/front/xhashptr.c:261-297 | a walk from the first key by next keys until there is none names every stored key, each exactly once |
| HashPtr.VisitsAll | src/runtime/front/xhashptr.c:261-297 | in table order no key occurs twice and every stored key occurs |
| Base64.FileReadsBack | src/interfaces/c4snet/base64.c:51-228 | any series of types and data written to one file is read back in order |
| Base64.DecodedEncoded | src/interfaces/c4snet/base64.c:66-228 | wherever a text of bytes stands in a file, reading as many bytes gives them back, consumes exactly the text with its padding, and returns the count writing returned |
| Base64.DecodedEncodedType | src/interfaces/c4snet/base64.c:51-145 | the same for the number of a data type |
| Base64.TypeText | src/interfaces/c4snet/base64.c:51-63 | a type number is one pad for each 64 and the letter of the rest |
| Base64.TypeRead | src/interfaces/c4snet/base64.c:117-145 | for any number of pads and what follows them: 64 for each pad and the letter's place, or 64 and count 0 without a letter |
| Base64.EncodedByGroups | src/interfaces/c4snet/base64.c:66-114 | the text is that of section 4 of RFC 4648, character by character over the 64 letters of its table 1 written out: groups of 24 bits, and one or two pads |
| Base64.LetterInAlphabet | src/interfaces/c4snet/base64.c:37-45 | the table of the code is table 1 of RFC 4648, with = behind it |
| Base64.Vectors | src/interfaces/c4snet/base64.c:66-114 | a test vector of section 10 of RFC 4648, and the byte 0xFB |
| Base64.BrokenText | src/interfaces/c4snet/base64.c:151-228 | a text that is cut short or spoilt: the bytes that were complete, then zeros; count 0 and the strange character left in the file (byte 255 is taken), or the padding taken with what is there of it |
| Base64.Encode | src/interfaces/c4snet/base64.c:66-114 | the bit-shuffling loop appends exactly that text and returns its length |
| Base64.Decode | src/interfaces/c4snet/base64.c:151-228 | for every file content, malformed or short: the bytes, the count and the file position |
| Base64.EncodeDataType | src/interfaces/c4snet/base64.c:51-63 | one pad for each 64, then a letter; the value returned is the sum of the characters written |
| Base64.DecodeDataType | src/interfaces/c4snet/base64.c:117-145 | for every file content: the number, the count (0 if no letter follows) and the file position |
| Base64.Search | src/interfaces/c4snet/base64.c:165-170 | the position of a character in the table, or one past the padding |
| MessageRing.RunDelivers | src/distrib/scc/scc.h:73-132 | in every state of every run the bytes read and those still held are exactly the bytes written, in order, and one slot is free |
| MessageRing.WrittenHolds | src/distrib/scc/scc.h:112-128 | a piece goes behind everything unread and overwrites none of it, at the wrap-around too |
| MessageRing.TakenHolds | src/distrib/scc/scc.h:81-93 | reading takes the oldest bytes and leaves the rest |
| MessageRing.Room | src/distrib/scc/scc.h:112-113 | there is no room in one piece exactly when all slots but one are used |
| MessageRing.Buffer.WriteRound | src/distrib/scc/scc.h:107-131 | one round of the writer moves the largest piece there is room for |
| MessageRing.Buffer.Read | src/distrib/scc/scc.h:73-95 | returns the next bytes in order, over the wrap-around |
| MessageWriters.WholeExactly | src/distrib/scc/scc.h:55-132 | messages of several writers, all finished, stand whole in the ring if and only if no writer cuts in: takes the lock, to start or to resume, while another one that found the ring full after the first bytes of its message is without it, and finds room for a piece first |
| MessageWriters.FlagKeepsApart | src/distrib/scc/scc.h:55-71 | when the ring is never full within a part, a waiting writer leaves the flag set, no one else starts, and all messages stay whole |
| MessageWriters.MessagesCanMix | src/distrib/scc/scc.h:116-129 | a concrete run over a ring of three slots that splits a message: the first piece clears the flag, the ring is full, another writer starts |
| Des.CipherUndone | examples/SCCNK/des/des_implement_c.c:140-316 | for every block and all subkeys: the same data path with the subkeys reversed returns the plaintext |
| DesStandard.CipherIsStandard | examples/SCCNK/des/des_implement_c.c:9-316 | for every block and every key of 64 bits: the program's cipher is that of FIPS 46-3, stated with the standard's own tables and formulas: initial permutation, sixteen iterations on two halves, preoutput |
| DesStandard.IPInjective | examples/SCCNK/des/des_implement_c.c:9-19 | the initial permutation determines the block, so that the theorem above determines the ciphertext |
| DesStandard.FIsCipherFunction | examples/SCCNK/des/des_implement_c.c:47-118 | expansion, selection and permutation of a half with any subkey are those of the standard |
| DesStandard.SubkeyIsK | examples/SCCNK/des/des_implement_c.c:22-45 | each of the sixteen subkeys has the key bits the standard names: permuted choices 1 and 2 and the schedule of shifts, for keys with parity bits left out |
| DesStandard.SubstituteIsSelect | examples/SCCNK/des/des_implement_c.c:58-108 | on any six bits each box gives the entry of the standard's table in the row of the outer and the column of the inner bits |
| DesStandard.RowGivesAll | examples/SCCNK/des/des_implement_c.c:58-108 | with the outer bits fixed each box gives every number for some inner bits |
| DesStandard.TwoBitsChange | examples/SCCNK/des/des_implement_c.c:58-108 | inputs of a box that differ in one bit give outputs that differ in two at least |
| DesStandard.ZerosSubstituted | examples/SCCNK/des/des_implement_c.c:221-256 | a worked value: six zero bytes give EF A7 2C 4D |
| DesStandard.NibbleBits | examples/SCCNK/des/des_implement_c.c:221-256 | the four bits a box gives are those of the number, the highest first |
| DesStandard.ByteBits | examples/SCCNK/des/des_implement_c.c:134-138 | the bits of a byte are those of the number, the highest first |
| Des.KeyRestored | examples/SCCNK/des/des_implement_c.c:163-217 | sixteen rounds rotate both 28-bit halves once round and restore the key register |
| Des.RoundUndone | examples/SCCNK/des/des_implement_c.c:274-311 | a round on exchanged halves with the same subkey undoes the round |
| Des.RoundsUndone | examples/SCCNK/des/des_implement_c.c:274-311 | the rounds with reversed subkeys undo the rounds |
| Des.BlockPermutations | examples/SCCNK/des/des_implement_c.c:269-316 | initial and final permutation undo each other around the exchange of halves |
| DesBytes.Encipher | examples/SCCNK/des/des_implement_c.c:269-316 | the byte-level program computes that cipher with the key schedule's subkeys; DesStandard.CipherIsStandard says what this is |
| DesBytes.RoundP | examples/SCCNK/des/des_implement_c.c:274-311 | one round on bytes is one round on bits, and the key register turns |
| DesBytes.KeyShift | examples/SCCNK/des/des_implement_c.c:163-217 | both halves of the register rotate left by the given number of bits (at most eight) |
| DesBytes.Permute | examples/SCCNK/des/des_implement_c.c:140-160 | each bit of the result is the one the table names |
| DesBytes.Sbox | examples/SCCNK/des/des_implement_c.c:221-256 | eight table lookups on six bits each, two results to a byte (the tables: DesStandard.SubstituteIsSelect) |
| DesBytes.XorBytes | examples/SCCNK/des/des_implement_c.c:259-265 | bitwise exclusive or |

## Left out

- Zipper.ZipperLanding.NodeZipper: a mask is the set of its set bits, which is what an `int` mask is for widths up to 31; wider nodes overflow the shift in the code.
- Zipper.ZipperLanding.NodeZipper: pattern guards are functions of the record, expression evaluation is not modelled, and freeing records has no counterpart.
- Zipper.ZipperLanding.NodeZipperData: for nodes with a record that all sync and no exit patterns accept the loop may not end, and the method does not speak about them; ZipperRounds does, for all nodes. What it does is stated up to fresh cells at the end of the list.
- ZipperSpec.ZipperRefinesChain: the chain handles one input at a time; the order between records that travel down it at the same time is not considered, and stars and cells hand records on in one hop.
- StarChain.Hop: stars and cells of the chain are values in a list; the star's descriptors, its collector and its leader (xstar.c:29-103), which are updated in place, are left out.
- LicencePipes.RunIsSafe: descriptor and landing numbers are never used again, so a freed descriptor stays visible as closed; ranks stand for a topological order of the streams, which feedback networks have because their landings are never dissolved.
- LicencePipes.RunIsFifo: speaks about one open end at a time, and about steps in which that end is not closed; what the nodes do with a record between taking and writing is not modelled.
- Workers.Front.WorkItem: the methods are proved undisturbed; what other workers may do between their atomic operations is covered by the machine in Licences, whose steps they consist of.
- Workers.Front.ClearWay: proved undisturbed, like WorkItem; that the landing's lock is free is looked at once.
- Workers.Front.StealVictim: the victim's to-do list is a sequence in which items keep the order of entering; the code's linked list and the pointer at which it goes on searching are not modelled.
- Workers.Front.MergeQueues: a stream's queue is a sequence; `Fifo` has the linked queue and its merging loop, which is not connected to the workers.
- Licences.StepKeepsInv: the FIFO put, the reference and the to-do entry of a write, and the parts of dissolving a landing, are several operations of xstream.c without a common lock; `Put` and `Dissolve` are one step each.
- Workers.Front.EnterLoot: places in the to-do list (the linked order of items, the free list, the iteration pointer) are not modelled; the hash table decides what is an item.
- References.RunIsSafe: an owner and one remote node; updates of several nodes are not ordered by the code.
- ReferenceTables.Tables.SetData: interfaces' copy and free functions, and the streams of waiting readers, are left out; an answer is the pair of what was asked for and what was given.
- Determinism.OrderRestored: the collector's branch that makes up a detref for a record without one (xcoll.c:23-34) is not modelled.
- DetSeries.FailsExactly: which way a dispatcher sends a record is an input of each step; the handing over of a star's entry when the star collapses (xstar.c:71-95) is left out. Feedback loops are not streams of the plan, and their own detrefs are not in it; what one does to the order on a stream is overtaking.
- DetOvertaking.PlanFailsExactly: streams are numbered in the order of flow, as networks without feedback loops allow.
- DripBack.OneAtATime: which records match the feedback patterns is an input of each step; opening and closing streams is left out.
- Feedback.EndsOnce: the landings that only forward (xfeedback.c:181-211) are not modelled.
- Feedback.DeliveredExactly: outer detrefs are counters; which network they belong to, and the order in which a record gives them up, are left out, as in DripBack.
- InputManager.Manager.UpdateBlocked: the order in which the two mutexes are taken, creating routes, and blocking at the sender are left out.
- BoxGate.GateIsSafe: two or more invocations; with one the code takes another branch that keeps the landing's lock throughout.
- BoundedStream.Stream.Read: a blocking read or write is modelled as one that waits until its condition holds; condition variables and read callbacks are left out.
- LutAllocator.Table.MallocLut: entries are counted from the table's start; page addresses, and `SCCMallocPtr` and `SCCFreePtr`, which share no invariant with the table, are left out. Where no block fits the code stops the program; the model returns None.
- HashPtr.HashTab.Store: keys are numbers and a chain is a sequence; a node's place in memory is not modelled, a free-list node is the entry last stored in it. The key must be absent; the code checks only the first entry of the chain.
- HashPtr.HashTab.Lookup: a missing key gives None where the code returns NULL, which a stored value could be as well.
- Base64.Encode: `&`, `|` and shifts of unsigned bytes are written with `%`, `+`, `*` and `/`, which agree on disjoint bits.
- MessageRing.RunDelivers: reads ask for bytes that are there, as the callers do; memory ordering and write combining are left out.
- MessageWriters.WholeExactly: the reader takes bytes under the lock while no writer has it; a part no shorter than the ring, which the code refuses with a fatal error, is not begun.
- DesBytes.KeyShift: at most eight bits, because the code remembers the bits that wrap around in one byte; the schedule asks for one or two.
- Des.CipherUndone: subkeys may be any sixteen or other number of 48-bit keys; the program's keys have no parity bits, and DesStandard leaves out those of the standard's.
- CircularList.List.constructor: only empty lists are created; Copy, Remove, Serialise and Contains of the template are left out, the first three because they assume a list that starts at slot 0.
- Parsing, printing, observers, sockets, files, tracing, monitoring and command-line options are left out, as are the output manager's lists and the idle-detection heuristic of the workers.
