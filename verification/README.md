# Fork-scan protocol, canonical index and publication: a Dafny model

The checker follows a chain of block notices. For each notice it writes the canonical index, marks the
validation objects of replaced blocks as forks, and publishes drop and new messages to one or two topics.
Beside this main flow a scan worker revisits every published height some time later, because an object can be
uploaded after its height was processed. The worker reads without the processing lock; only its writes and its
checkpoints take it. The durable scan cursor promises that no height is skipped whatever happens in between:
reorganisations that come and go, shorter chains, failing stores, crashes and restarts.

The project models these parts and proves what they promise.

| file | content |
|---|---|
| `Types.dfy` | heights, hashes, blocks, notices, the durable cursor and its validity |
| `CanonicalIndex.dfy` | what one write does to the index and the cursor; the index as a chain |
| `ConsistencyDB.dfy` | the store object: lookups, cursor cell, the atomic batch built in loops |
| `KeySpace.dfy`, `Text.dfy` | the flat key-value store below the typed one |
| `ScanCore.dfy` | every locked section of the checker as a function on its state |
| `Checker.dfy` | the checker object, its methods proved equal to those functions; batch loops and catching up |
| `ScanMachine.dfy` | the protocol as a state machine: locked sections, unlocked reads, other writers, clock, crash |
| `ScanInvariants.dfy`, `ScanHeads.dfy`, `ScanHistory.dfy` | the invariants and their preservation, step by step |
| `ScanTheorems.dfy` | the promises over all runs of the machine |
| `ScanProgress.dfy` | what the scan may count on: observations mature, batches get all that is mature, checked heights below a rewind are kept |
| `ScanExample.dfy` | a run from nothing that covers a height |
| `Replay.dfy` | why a replayed notice may repair a cursor that missed transitions |
| `Recovery.dfy` | skipped messages, true replays, restarts |
| `Publication.dfy` | delivery marks, sending, exactly-once per destination |
| `PublishedWalk.dfy` | whole notices and runs of them: what a reader of a topic reconstructs |
| `NoticeRuns.dfy` | whole notices as runs of the state machine, and what a finished one has saved |
| `Publisher.dfy` | the publishing half of the checker object |
| `CommonAncestor.dfy` | the common-ancestor walk |
| `Alignment.dfy` | aligning the singleton topic with the version topic |
| `AlignmentRetries.dfy`, `AlignmentExample.dfy` | failed and repeated alignments; two branches on which order and failure matter |
| `ObjectKeys.dfy` | names of validation objects |
| `ForkRewrites.dfy` | planning and applying fork marks at one height |

How the pieces fit. `ScanCore` holds one definition of each locked section. The methods of `Checker` and
`Publisher` change fields, call the store and loop as the original does, and their contracts equate the new
state with the `ScanCore` function of the old one. The state machine takes the same functions as its steps, so
the promises in `ScanTheorems` are about the behaviour the methods are proved to have. The machine records, for
its theorems only, a log of states, the step at which each observation was made, and for each covered height
the scan that covered it.

What is taken for granted: a hash identifies one block; the lists of a notice are ascending and parent-linked
and, when it drops blocks, both lists start at the same height and parent; a failed write or commit has no
effect; clocks do not run backwards.

Arithmetic is on `uint64`: heights and generations are bounded integers, so each stored result is proved not to
wrap, and the overflow checks of the code are modelled as the errors they are.

## Model

| member | source | states |
|---|---|---|
| ScanTheorems.DurableCoverage | check/fork_scan_batch.go:107-153 | in every reachable state each height between baseline and cursor was scanned in full: it had been published a full interval before its batch began, has had one hash ever since that observation, all objects stored at it in a state after the batch began were listed, the canonical one among them, and each was seen or put right against that hash after the listing |
| ScanTheorems.CheckpointSeesNoReorg | check/fork_scan_batch.go:128-153 | a checkpoint moves the cursor only over heights whose mapping has been the same in every state since the batch began (so not away and back), and never alters generation, pending, published head, position or index |
| ScanTheorems.CheckpointSpansRun | check/fork_scan_batch.go:28-153 | the same over the states of a run alone: a height passed by a checkpoint has one and the same hash in every state between the beginning and the end of its batch |
| ScanTheorems.LogIsTheRun | check/fork_scan_batch.go:14-26 | the log the promises speak of is the run: every state of it and nothing else, in order |
| ScanTheorems.ObservationDelay | check/fork_scan.go:289-319 | every height a running batch may still use was at or below a head published at least one interval before the batch began and has not been remapped since, also when a reorganisation fell between observation and batch start |
| ScanTheorems.MatureBelowPublished | check/fork_scan.go:260-299 | mature height is at most the observed height, and that at most the published one |
| ScanTheorems.ScanWritesMatchIndex | check/fork_scan.go:436-489 | whatever any step but another writer's changes among the objects is one write of a scanner, and it sets the fork mark to "hash differs from the one canonical at that height in that state" |
| ScanTheorems.RecordedWritesMatchIndex | check/fork_scan.go:436-489 | every recorded write of a run, also one that changed nothing, was right in the state that made it |
| ScanTheorems.CheckpointsStayValid | db/fork_scan.go:45-59 | the saved cursor always loads again (format, non-zero generation and heads, at most one past the published head, a real position) and equals the copy in memory; an aligned checker with nothing pending has saved exactly its latest published block |
| ScanTheorems.PendingEndsAtItsTail | check/fork_scan.go:211-254 | an aligned checker gives up a pending update only to the tail of a newer write, or when that very tail is saved as published, is the latest block and is the last message out |
| ScanTheorems.WriteIsAccepted | db/consistency.go:237-249 | cursor validation never refuses a canonical write in a reachable state, shorter chains included; only a generation overflow can |
| ScanTheorems.PublicationIsAccepted | check/fork_scan.go:213-254 | the checkpoint after a publication is never refused by validation, short of a first baseline at the last height |
| ScanTheorems.RecoveryIsAccepted | check/fork_scan.go:107-207 | in a reachable state a recovery checkpoint goes through exactly unless one of the source's own checks refuses it, never the cursor's validity, and neither does the checkpoint of a notice already published |
| ScanTheorems.BatchIsAccepted | check/fork_scan_batch.go:128-153 | the checkpoint of a batch with a non-empty verified prefix is never refused by validation, and lands one past the prefix |
| ScanProgress.ObservationMatures | check/fork_scan.go:289-319 | in any run and after any schedule: what was published when an observation was taken is mature at the first one due a full interval later, less only what writes in between cut off, and the worker is handed all of it that is not yet scanned |
| ScanProgress.WriteCutsExactly | check/fork_scan.go:268-287 | a canonical write takes from the observed, the mature and the batch's heights exactly those at or above its first new block, and only if the generation rises; what is left keeps its age |
| ScanProgress.BatchTakesTheMature | check/fork_scan_batch.go:28-49 | in reachable states a batch begins exactly when nothing is pending and something current is mature, and it holds exactly the heights from the cursor on that the worker was told of and that are mature now, also after the generation changed |
| ScanProgress.FencedPrefixSurvives | check/fork_scan_batch.go:104-153 | whatever overtook a batch, in reachable states its checkpoint moves the cursor past exactly the scanned heights below the lowest height a write touched since it began |
| ScanProgress.SurvivingPrefixIsCheckpointed | check/fork_scan_batch.go:104-153 | the same over the states of a run: heights scanned by a batch and lying below every write since that raised the generation are all passed by its checkpoint |
| ScanTheorems.QuietHeightIsCovered | check/fork_scan_batch.go:28-153 | the machine makes progress: from any reachable state the worker alone covers an indexed next height whose canonical object is present, reading each object there once, writing exactly those with a wrong mark and touching nothing else |
| ScanExample.SomeHeightIsCovered | check/fork_scan_batch.go:28-153 | for any interval and any objects a state with a covered height, its marks all right, is reachable from an empty store and topic, so the promises over reachable states are not empty |
| ScanTheorems.StepKeeps | check/fork_scan_batch.go:14-26 | every step of main flow, worker, other writers, clock and crash keeps all invariants |
| ScanHeads.HeadsStep | check/fork_scan.go:107-254 | every step keeps the relations between cursor, published head, pending tail, latest block and the outer log, partly published notices included |
| ScanHeads.WrittenBelow | db/consistency.go:188-203 | a write leaves the cursor valid and at or below its first new block |
| ScanHistory.MainKeeps | check/check.go:1123-1137 | a main-flow step keeps what is claimed of the schedule, the running batch, its scans and covered heights: whatever it invalidates it also fences |
| Replay.ReplayRestoresCoverage | check/fork_scan.go:166-207 | after a transition the cursor was not told of, an accepted replay leaves every height below the new cursor scanned against the hash canonical now, and rewinds no further than to the first new block |
| Recovery.PreparationStartsAnewIff | check/fork_scan.go:107-144 | in offsets: short of a replay an accepted preparation of an unaligned checker starts the cursor anew at the startup head exactly when there is none, or when a message of the same partition lies between the saved and the incoming one and the startup head is another block; otherwise it changes nothing |
| Recovery.SkippedMessagesAreRescanned | check/fork_scan.go:129-132 | after such skipped messages a whole attempt that gets past its preparation claims no height as scanned, however it ends |
| Recovery.TrackedMessagesKeepTheCursor | check/fork_scan.go:107-144 | without skipped messages, or with the saved head at startup, no attempt throws scan work away below its first new block |
| Recovery.TrueReplayIsAccepted | check/fork_scan.go:148-207 | a notice that is what happened to the saved chain is accepted as a replay, and takes from the claimed heights exactly those from its first new block on if it dropped any |
| Recovery.RestartFinds | check/fork_scan.go:31-74 | a restart finds the saved cursor and the head of the outer log, and is aligned exactly if nothing is pending and cursor, log and index agree on that head |
| Recovery.RestartResumes | check/fork_scan.go:31-74 | an aligned checker with nothing pending comes back from a crash with the same cursor and head, aligned again exactly if the index maps that head |
| Recovery.RestartAfterPublication | check/fork_scan.go:31-74 | after a finished publication that is always so |
| Replay.UnchangedBelow | check/fork_scan.go:148-159 | no height below the first new block differs between the saved head's chain and the index |
| Replay.ChangedAtFirst | check/fork_scan.go:195-201 | with drops, the first new block's height did change, so the rewind is not too far |
| Replay.ChainsAgreeBelow | check/fork_scan.go:148-159 | two hash-linked chains that share a block share everything below it |
| CanonicalIndex.AtomicRewind | db/consistency.go:181-249 | the cursor goes to the lowest affected height if that is lower, the generation rises exactly when some height is affected, and an unchanged generation means the old index is contained in the new one |
| CanonicalIndex.RetryChangesOnlyGeneration | db/consistency.go:193-198 | the same write again changes no mapping and of the cursor at most the generation, which rises exactly when the first new block is not above the published head |
| CanonicalIndex.RewrittenAt | db/consistency.go:200-236 | height by height: new blocks in their range, nothing in the run left above the tip, the old mapping elsewhere |
| CanonicalIndex.WriteIsSplice | db/consistency.go:200-236 | on a contiguous linked index the write yields the old chain below the first new block followed by the new blocks, with nothing above |
| CanonicalIndex.ForkIffOffChain | db/consistency.go:83-114 | a known hash is reported as a fork exactly when it is not on the chain |
| CanonicalIndex.WriteKeepsIndexInv | db/consistency.go:200-236 | each continuing write keeps index, lookups and chain in agreement |
| CanonicalIndex.RunRefinesChain | db/consistency.go:172-265 | over any run of writes the index is that of the spliced chain, and every hash ever written is a fork exactly when it is off that chain |
| ConsistencyDB.ConsistencyDB.WriteBlockInfosWithForkScan | db/consistency.go:172-265 | succeeds exactly when counts match, no read it needs fails, generation and cursor stay valid and the commit succeeds; then index, infos, cursor and latest change together, and on any error nothing changes |
| ConsistencyDB.ConsistencyDB.StageMappings | db/consistency.go:200-224 | the batch sets exactly the new mappings, and the cursor is lowered to each height another hash held |
| ConsistencyDB.ConsistencyDB.StageDeletions | db/consistency.go:227-245 | the batch deletes exactly the run of mappings above the tip, up to the first hole |
| ConsistencyDB.ConsistencyDB.GetBlockInfoByHash | db/consistency.go:83-114 | unknown hash, unreadable mapping, or the block with its fork flag; a height without a mapping makes it a fork |
| ConsistencyDB.ConsistencyDB.GetCanonicalHashByNum | db/consistency.go:117-126 | the mapping, none, or a read error |
| ConsistencyDB.ConsistencyDB.LoadForkScan | db/fork_scan.go:61-90 | none, a valid cursor, or an error for an invalid one |
| ConsistencyDB.ConsistencyDB.SaveForkScan | db/fork_scan.go:104-111 | saves exactly the valid cursors whose commit succeeds |
| KeySpace.KeysAreFaithful | db/consistency.go:17-22 | hash, height and cursor keys are injective and pairwise disjoint, for all version bytes |
| KeySpace.BigEndianInjective | db/consistency.go:153-154 | minimal big-endian heights do not collide |
| KeySpace.CursorTextInjective | db/fork_scan.go:41-43 | cursor keys determine chain ID and version |
| KeySpace.FlatRefinesTyped | db/consistency.go:172-265 | a committed batch has on the flat store exactly its effect on the three typed maps |
| KeySpace.OtherCursorsUntouched | db/fork_scan.go:92-101 | a batch leaves the cursors of other chains and versions in the same store alone |
| Checker.Checker.LoadForkScan | check/fork_scan.go:31-74 | startup succeeds exactly when the cursor is valid, the outer tail is of this chain and the published head can be looked up if that decides the alignment; it then takes the cursor over, aligned only if nothing is pending and outer tail, published head and index agree |
| Checker.Checker.SaveForkScan | check/fork_scan.go:76-83 | memory follows the store, and only when the save succeeds |
| Checker.Checker.InitializeForkScan | check/fork_scan.go:85-103 | a new baseline with cursor one above it and a higher generation, or no change |
| Checker.Checker.RewindForkScan | check/fork_scan.go:268-287 | observations are cut below the height, and the running batch is fenced at the lowest one |
| Checker.Checker.PrepareForkScan | check/fork_scan.go:107-144 | reconciles a proven replay, resets on missing state or an offset gap, and does nothing otherwise: exactly the preparation of which `Recovery.PreparationStartsAnewIff` and `Recovery.TrueReplayIsAccepted` speak |
| Checker.Checker.ReplayMatches | check/fork_scan.go:171-186 | true exactly when the replay is contiguous and every block of it is indexed and readable |
| Checker.Checker.ReconcileForkScanReplay | check/fork_scan.go:166-207 | the reconciled state, or no change at all |
| Checker.Checker.FinishForkScan | check/fork_scan.go:211-254 | the published head and position are saved, and a pending update is cleared only at its own tail |
| Checker.Checker.WriteBlockInfoToDB | check/check.go:1114-1142 | index, cursor, schedule and fence move together when the commit succeeds, and not at all otherwise |
| Checker.Checker.ObserveForkScan | check/fork_scan.go:289-319 | one observation matures after a full interval, then the next is taken: exactly the step of which `ScanProgress.ObservationMatures` speaks |
| Checker.Checker.BeginForkScanBatch | check/fork_scan_batch.go:28-49 | a batch from the cursor up to a height that is mature now and published, or the reason there is none |
| Checker.Checker.VerifyForkScanBatchHeight | check/fork_scan_batch.go:107-126 | accepts a height exactly when batch, fence, cursor, published head and current hash all still agree; which scanned heights these are is `ScanProgress.FencedPrefixSurvives` |
| Checker.Checker.FinishForkScanBatch | check/fork_scan_batch.go:128-153 | checkpoints exactly the verified readable prefix (`ScanProgress.FencedPrefixSurvives`), ends the batch, and reports exactly whether work remains and whether all was clean |
| Checker.Checker.ScanBatchHeights | check/fork_scan_batch.go:55-86 | the checked heights are a run from the start, at most 128, none at or above the fence, each against its indexed hash, and the loop stops only for a stated reason, out of time only when a reading of the clock is past the deadline and none before was; the last height cannot wrap |
| Checker.Checker.ScanContinuousBatchWithClock | check/fork_scan_batch.go:55-86 | begin, scan and checkpoint of one batch, with the exact new state and exactly what is reported: whether work remains and whether all went well |
| Checker.Checker.QuietScan | check/fork_scan_batch.go:55-86 | without faults and reorganisations a non-empty batch advances the cursor by at least 1 and at most 128 under any clock, reports no error, and reports more work exactly if heights are left |
| Checker.ReadableUpTo | check/fork_scan_batch.go:137-143 | the readable part of a batch's heights ends exactly before the first that cannot be read |
| Checker.Checker.CatchUp | check/fork_scan_batch.go:55-86 | repeated batches bring the cursor to exactly one past the upper height, scanning each height once and in order |
| Publication.ExactlyOnce | check/check.go:1440-1486 | over any failures and retries of a notice each destination grows by a duplicate-free prefix of drops head-first then new blocks, two destinations differ by at most one message, and success completes both |
| Publication.SentKeeps | check/check.go:1488-1544 | wherever an attempt stops the prefixes hold, and the latest block is only ever one that all destinations have |
| Publication.SentOneKeeps | check/check.go:1440-1486 | one message reaches exactly the destinations that lack it and do not fail |
| PublishedWalk.PublishedWalk | check/check.go:1187-1285 | over any run of contract-abiding notices with any faults and retries, the topic of a destination of all of them can be replayed as pop-on-drop, push-on-new, while other destinations come and go; after a success what a reader holds is exactly the index, with the latest block at its tip |
| PublishedWalk.BeginStep | check/check.go:101-107 | delivery marks never carry over into another notice |
| PublishedWalk.CheckedFits | check/check.go:1166-1181 | passing the continuity check means that the drops are the top of the published chain and the new blocks continue it |
| PublishedWalk.FitsPasses | check/check.go:1166-1181 | and every notice that fits passes it |
| PublishedWalk.MessagesReplay | check/check.go:1488-1544 | every prefix of a fitting notice's messages is a legal replay, with its exact result |
| PublishedWalk.RetryAcceptedIff | check/check.go:1159-1181 | in any run, a retry of a notice sent in part gets past the continuity check if and only if no new block, or the last one, has gone out everywhere |
| PublishedWalk.PartlyPublishedSticks | check/check.go:1541-1541 | in any run, a notice whose new blocks are partly out everywhere is refused by every later attempt, which sends and changes nothing |
| PublishedWalk.TwoBlocksCanStick | check/check.go:1525-1544 | such a state is one failed write away from an empty topic, for any two linked blocks |
| NoticeRuns.AttemptIsSteps | check/check.go:1187-1285 | an attempt at a notice, whatever fails in it, is a run of the state machine's main-flow steps with the same final state, idle exactly if it succeeded |
| NoticeRuns.PublishedIsSaved | check/fork_scan.go:211-254 | a successful new notice leaves its tail as latest block and saved published head, nothing pending, the checker aligned, and its position saved |
| NoticeRuns.RepeatIsSaved | check/check.go:1196-1210 | a notice already out sends and indexes nothing and saves head and position like a publication; one whose tail is a drop succeeds only in recovery and changes nothing |
| NoticeRuns.EndingSaves | check/check.go:1268-1268 | in every run the step that ends a notice has saved head and position, and one that ends a publication ends the pending update and keeps the claimed heights |
| NoticeRuns.HealthyNoticeSucceeds | check/check.go:1187-1285 | in every reachable state a notice that passes the continuity check succeeds if no operation fails, short of the end of a counter |
| NoticeRuns.PublishedIsSent | check/check.go:1440-1544 | a success appends all messages of the notice to every destination's topic |
| Publisher.Publisher.ProcessNotice | check/check.go:1187-1285 | one attempt at a notice, all early exits included, has exactly the new state and result of which `NoticeRuns.AttemptIsSteps` and `NoticeRuns.PublishedIsSaved` speak, and a successful alignment makes the singleton topic a destination from the next notice on |
| Publisher.Publisher.BeginNotice | check/check.go:101-107 | marks are cleared exactly when the notice identity changes |
| Publisher.Publisher.PublishOuter | check/check.go:1440-1486 | writes where due, marks what succeeded, true exactly when every destination has the message |
| Publisher.Publisher.MarkDelivered | check/check.go:109-122 | exactly the destinations without an error gain the mark |
| Publisher.Publisher.WriteDropBlockNotice | check/check.go:1488-1502 | the drops in the order given, up to the first refusal |
| Publisher.Publisher.WriteNewBlockNotice | check/check.go:1525-1544 | the new blocks upwards, the latest block advancing with each that all destinations have |
| Publisher.Publisher.MsgCheck | check/check.go:1166-1181 | the continuity check on the latest outer message |
| CommonAncestor.GetCommonAncestor | check/check.go:369-441 | succeeds exactly when the local block is not higher and a common ancestor exists, and returns the highest one with the two parent-linked paths up from it |
| CommonAncestor.JoinUnique | check/check.go:369-441 | ancestor and paths are determined, so the direct-child short cut and the walk agree |
| CommonAncestor.JoinExists | check/check.go:369-441 | blocks with any common ancestor have a highest one, whichever is higher |
| CommonAncestor.DirectChild | check/check.go:374-377 | the short cut returns the join |
| Alignment.Aligner.Align | check/check.go:1344-1432 | the exact result on any index and any stored blocks: nothing, a fast-forward, or the announcement of the join, up to the first write or lookup that fails |
| Alignment.AlignmentIsJoin | check/check.go:1344-1432 | on a contiguous index ending at the version head both branches send the announcement of the one join, a prefix of it on failure; it succeeds exactly when all of it was sent, and nothing is sent when there is no join |
| Alignment.Aligner.FastForward | check/check.go:1354-1383 | sends what the index holds above a height, in order, up to the version height or the first lookup, read or write that fails |
| Alignment.ForwardIsAnnounced | check/check.go:1354-1383 | on a contiguous index that is exactly the chain above the height |
| Alignment.Aligner.Reorganise | check/check.go:1400-1430 | sends all drops, then all new blocks, up to the first failing write |
| Alignment.FastForwardJoin | check/check.go:1352-1383 | for a canonical singleton head the join has no drops and its new list is the rest of the chain |
| Alignment.AlignedTopicIsVersionChain | check/check.go:1344-1432 | a finished alignment turns the live blocks of the singleton topic from its head's chain into the version head's |
| Alignment.StackReadsAlignmentIff | check/check.go:1400-1414 | drops go out lowest first, so a reader that pops its top block can follow exactly when there is at most one drop |
| AlignmentExample.TwoDropsMisread | check/check.go:1400-1414 | a stored tree with two drops on which such a reader cannot follow |
| AlignmentRetries.RetriedAlignmentIff | check/check.go:1326-1432 | over any number of failed attempts and one that finishes, the live blocks of the topic are the version chain if and only if no attempt that started from a live head stopped strictly inside its drops |
| AlignmentRetries.NextJoin | check/check.go:1326-1342 | what the next attempt starts from: the last drop, joining where the old head did, or the last new block, with nothing left to drop |
| AlignmentExample.FailedDropsStray | check/check.go:1400-1414 | a legal run of two attempts, the first failing on its second write, after which a block off the version chain stays live |
| Alignment.SignedKeyExact | check/check.go:1348-1348 | lookups by number go through a signed integer and are exact up to 2^63 and never beyond |
| ObjectKeys.KeyRoundTrip | check/check.go:546-565 | the hash read back from a name is the one it was made with exactly when the version, if part of it, has no slash; otherwise none is read |
| ObjectKeys.PrefixIffHeight | check/check.go:539-551 | a name starts with the prefix of a height exactly when it was made for that height |
| ObjectKeys.KeyInjective | check/check.go:546-551 | different blocks have different names |
| ObjectKeys.PrefixesDisjoint | check/check.go:539-544 | no name whatever lies under two heights |
| ForkRewrites.WantedOfName | check/check.go:553-565 | the mark a name under a height's prefix demands: fork unless what follows the prefix is the canonical hash, in any case; none if a slash follows or the version has one |
| ForkRewrites.RightMeans | check/check.go:719-758 | all right means that every object of a block at the height is marked exactly if its hash is not the canonical one |
| ForkRewrites.AllRightIffNamesFollow | check/check.go:719-758 | and is the same as every readable name carrying the mark its text demands, the canonical one being there |
| ForkRewrites.CanonicalIsFound | check/check.go:702-758 | the canonical block's object is found under its name in any listing, and no object is once the version has a slash |
| ForkRewrites.ApplyConverges | check/check.go:687-779 | applying a plan leaves every listed object's mark as its name demands (`ForkRewrites.WantedOfName`), changes nothing else, and a second plan is empty |
| ForkRewrites.StoppedApplyLeavesRest | check/check.go:761-779 | an apply that stops after any number of writes leaves exactly the rest of its plan to be planned again |
| ForkRewrites.EmptyIffRight | check/check.go:782-791 | a plan is empty exactly when no listed object carries a mark other than its name demands (`ForkRewrites.WantedOfName`) |
| ForkRewrites.KnownIsRead | check/check.go:724-744 | an accurate object fetched ahead gives the plan that reading it would give |
| ForkRewrites.Marker.ListBlockValidationKeys | check/check.go:567-604 | exactly the names under the height's prefix, each once |
| ForkRewrites.Marker.PlanForkRewrites | check/check.go:687-758 | the exact result from the keys fetched ahead if the canonical object is among them, else from a listing |
| ForkRewrites.Marker.PlanKeys | check/check.go:719-758 | the plan over the keys, lost by one unreadable object, refused without the canonical one |
| ForkRewrites.Marker.ApplyForkRewrites | check/check.go:761-779 | writes in order up to the first write that fails |
| ForkRewrites.Marker.RewriteForkBlocksAtHeight | check/check.go:782-791 | after a truthful hint or a listing, success means that at this height exactly the objects of other blocks are marked, and only marks changed; it is certain if the canonical object is stored and no operation needed fails, and impossible with a slash in the version, when nothing is changed |
| ForkRewrites.Marker.ConvergeAtHeight | check/check.go:651-674 | three rounds never end unconverged, whatever was fetched ahead; with a truthful hint success means that exactly the objects of other blocks are marked, and is certain if the canonical object is stored and nothing fails |
| ForkRewrites.Marker.RewriteForkBlocksAtSameHeight | check/check.go:651-674 | the same for all new blocks of a notice, whose heights do not disturb each other |

## Left out

- Kafka, etcd, S3, HTTP and Pebble clients: they are logs, maps and atomic batches whose operations may fail without effect.
- JSON, gzip and RLP encoding: the cursor cell and the block records hold values; a record that does not decode is an invalid cursor.
- Leader election, watchdog, shutdown and the replica polling before a write: their outcome is an argument of the step, and leadership is fixed during a notice.
- Prefetch goroutines, semaphores, timeouts, backoff, metrics, logging, configuration and the JSON-RPC server.
- The start height of the recent-window scan: the machine lets that scanner write at any height at any time, under the verification it really makes.
- Window and disabled modes are not steps of the machine; what they leave behind for the cursor is the subject of `Replay.dfy`.
- The order in which the worker reads and writes the objects of one height: the machine allows every order.
- Notice identity and delivery marks in the state machine: there they are one counter of messages sent for the current notice and one destination; `Publication.dfy` proves that the marks behave so, for all destinations.
- The limit of 128 heights and the time budget of a batch in the state machine, which allows batches of any length; `Checker.Checker.ScanBatchHeights` has both.
- When an alignment is attempted: the cached singleton head and the wait until the version head is not lower.
- Cancellation inside the loop of a batch; at its end `Checker.Checker.FinishForkScanBatch` has it.
- Checker.Checker.FinishForkScan: the chain ID check on the latest outer message, which repeats the one `Checker.Checker.LoadForkScan` makes at startup; every later message is this checker's own.
- Marking dropped blocks as forks before the write: in the machine it is one of the other object writers, and `Publisher.Publisher.ProcessNotice` has no object store.
- Run loop: skipping an offset already committed; that a failed notice is tried again before any other is modelled.
- Completion of a notice partly out when its new blocks are several, and recovery by replay from an outer tail that is one of several drops: the continuity check refuses these, see `PublishedWalk.RetryAcceptedIff`.
- Alignment.Aligner.Align: a version head at the last height of all, where the loop counter of the code would wrap for ever.
- Alignment.AlignmentIsJoin: indexes with holes or not ending at the version head, and heights above 2^63, where lookups are of other heights (`Alignment.SignedKeyExact`); `Alignment.Aligner.Align` has the result there.
- PublishedWalk.PublishedWalk: without crashes, as the marks and the latest block are volatile; what a crash may leave in the cursor is in `ScanTheorems.DurableCoverage` and `ScanTheorems.PendingEndsAtItsTail`. What other instances write to the singleton topic before it joins is not in the run, which starts where it joins.
- Checker.Checker.CatchUp: the last height of all cannot be scanned by the code, so the upper height is below it.
- Publisher.Publisher.ProcessNotice: the repeated marking after publication, whose failure is ignored, and the alignment inside the notice, whose outcome is an argument.
- Case-insensitive comparison of hash texts is on ASCII letters, which are the only ones with case in such a text.
