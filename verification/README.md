# Trebiz consensus core

A Dafny model of the consensus core of Trebiz: PBFT with threshold-signature certificates and a fast
path, as written in `core/core.go`, `core/viewchange.go` and `core/node.go`, with the quorum sizes of
`config_gen/main.go`. `dafny verify dfyconfig.toml` checks all of it.

## How it is built

- **Values.** `Types.dfy` has the messages, `ReplicaState.dfy` the state of one replica as a value,
  `Assignment.dfy` and `Handlers.dfy` what each handler does to it. Sequence numbers and watermarks are
  32-bit and wrap wherever the source computes with them. A digest is the name of a batch, a threshold
  signature is named by its key and message, and a recovery from too few genuine shares panics.
- **The mutable form.** `Replica.dfy` has `Node` and `MsgCert` as classes with the source's fields, and
  the handlers as methods that update them in place; `Abs()` is the state as a value, and each method
  is proved to do to it what its function in `Handlers` says. `Computations.dfy` has the loops that only
  compute (scans of view-changes, `assignSequenceNumbers`, `GetMapkey`, ...), proved against the
  functions of `Assignment`. Go's map order appears as arbitrary enumerations of the configuration
  (`scanIds`, `scanCheckpoints`, `scanViewChanges`) or as an arbitrary choice in a loop.
- **The cluster.** `Cluster.dfy` is a transition system of n replicas: correct ones run the handlers, one
  atomic step per message, client batch or timer; faulty ones send anything except signatures and shares
  of correct replicas, and threshold signatures without enough shares behind them; the network delivers
  anything ever sent to anyone, any number of times, in any order, or never.
- **Invariants.** `Invariants.dfy` and `Preservation.dfy` hold for one replica under arbitrary messages;
  `Soundness.dfy`, `SoundHandlers.dfy` and `Reachability.dfy` for the cluster; `Frames.dfy` says what
  handlers leave alone.
- **Theorems.** For safety: `Quorum`, `Agreement`, `Watermarks`, `ViewHistory`, `Recovery`, `Succession`,
  `Numbering`, `Issuing`, `IssueHistory`, `Execution`, `Delivery`. For progress - that a step does what it is
  for, exactly when: `Sending`, `Tallying`, `Entering`, `Following`, `Checkpoints`, `Reporting`. For what the
  code does not achieve and exactly when: `Acceptance`, `MixedPaths`, `Findings`, `Divergence` and `Strays`;
  `Runs.dfy` builds the whole runs of the last two.

## What the proofs show about the code

- Certificates for one number and view never certify two non-empty digests, whatever the primary does,
  as long as fewer than a third of the replicas are faulty. One of them can certify no digest at all
  (`CertificateForNothing` is such a run). For n a multiple of three the generator also
  admits exactly n/3 misbehaving replicas, and then certificates can disagree
  (`CertificatesCanDisagree` is a run of three replicas). `2*f+1` shares are enough for the threshold key
  exactly when n mod 3 is not 2.
- A new primary takes the batch of a number from one message of its quorum: the first that reports a
  pre-prepare and a certificate together, or else the last that reports the winning digest. Nothing ties
  pair, batch and digest together, so a committed digest survives exactly if that message - the decider -
  carries its batch and the number is in the range of the new view (`FastCommitSurvivesExactly`,
  `SlowCommitSurvivesExactly`). It does if the whole quorum reports consistently; one faulty member with a
  genuine certificate can overwrite the commit (`ForgedPairDecides`), and one that claims a high watermark,
  which needs no checkpoints, can lift the range above it (`LiarLifts`). When it is a correct member whose
  watermark is that high, more than n/3 correct replicas have executed the number (`BelowRangeExactly`).
- In a view with a correct primary, and without automatic view changes, nothing is certified but what its new
  view assigned or what it proposed itself (`CertifiedByPrimary`). So what was committed before a view change
  is what is certified and executed after it exactly if the decider carried its batch
  (`FastCommitCrossesExactly`, `SlowCommitCrossesExactly`, `LogsAgreeAcrossViewsExactly`).
- `handlePrepareQc` looks neither at the view of a certificate nor for the pre-prepare: a correct replica can
  sign a commit in a later view, after the view-change that should have reported it (`CommitsUnreported` is
  such a run); its next view-change reports the pair exactly if it holds a pre-prepare for the number
  (`CommitReportedExactly`).
- `checkIfPrepared` does not compare the digest of a certificate with the one stored, so a faulty primary
  can make two correct replicas execute different batches (`LogsCanDiverge` is such a run); each executes
  what was certified exactly when the certificate matches what it has stored (`ExecutedAgreeExactly`).
- A vote is made for the current view while the pre-prepare is stored under its own, so a correct replica
  can sign a vote for no digest and then a proper one for the same number and view (`SignsTwice`); if
  executing ends the view first, the vote is even for the next one (`VoteCastExactly`).
- A correct replica's view-change is sure to be accepted exactly if every pre-prepare it holds above h is of
  a view it has reached and below h+K (`OwnViewChangeAccepted`). `handlePrePrepareMsg` looks at neither: a
  pre-prepare of a later view is stored and gets the view-change rejected (`LaterProposalBlocks`); and since
  every new view assigns numbers up to h+K, a replica that starts it with the same watermark has all its
  view-changes rejected until its watermark moves (`NewViewBlocksViewChange`).
- Steps do their work: what is signed, issued, executed to a checkpoint or published has been sent, and nothing
  else has (`SaidExactly`); properly signed votes and commits kill nobody and lead to certificates that verify
  (`HonestVotesCertify`, `CommitCountsExactly`); a replica that waits in a view takes up, holds and votes for
  every entry of its new view (`NewViewEnteredExactly`); the f+1 rule, the watermark and every departure from a
  view follow their conditions exactly (`ViewGrowsExactly`, `CheckpointMovesExactly`, `StepLeavesExactly`).
- A slow and a fast certificate for one number commit it or leave it prepared depending on which came first,
  exactly as long as the commit certificate is missing (`OrderMattersExactly`).
- The comment before `selectInitialSequence`'s call speaks of the latest stable checkpoint as `min-s` and
  the code takes the maximum; a value of 0 - no stable checkpoint yet - makes a new primary give up
  (`NewViewPublishedExactly`, `StuckWithoutCheckpoint`). The comment in `recvCheckpoint` says 2f+1; the code
  asks for 2n/3+1.
- After a new view, fresh numbers lie above the numbers it assigned exactly if the replica's own watermark
  is not behind the checkpoint the view starts from (`FreshNumbersAboveExactly`).
- `handlePrepareVote` uses the timer of whatever view the vote names, and dies without one: a faulty replica
  can end any correct replica, primary or not, exactly while that is active and has recorded no vote of the
  faulty one in this view for some number of its window (`SomeVoteKillsExactly`, `OneVoteEndsRun`).

## Model

| member | source | states |
|---|---|---|
| `Replica.Node.constructor` | core/node.go:137-206 | a new node is in the initial state: first view, active, next number 1, nothing stored |
| `Replica.Node.GetCert` | core/node.go:368-378 | returns the stored certificate or inserts a fresh one; nothing else changes |
| `Replica.Node.HandleMessage` | core/node.go:261-364 | dispatches each kind of message to its handler |
| `Replica.Node.HandleEvent` | core/node.go:261-364 | one atomic step; whatever arrives keeps the invariant, and what is stored, signed, sent and executed only grows |
| `Replica.Node.SendBatch` | core/node.go:536-556 | only the primary of an active view proposes |
| `Replica.Node.BroadcastPrePrepareMsg` | core/core.go:38-76 | proposes under the next number within h+K/2 and the view-change number, and starts its timer |
| `Replica.Node.CreatePrePrepareMsg` | core/core.go:15-36 | the pre-prepare takes nextSN, which moves on by one (wrapping) |
| `Replica.Node.HandlePrePrepareMsg` | core/core.go:79-143 | rejects, asks for a view change, or stores the pre-prepare, lets the certificate climb and votes |
| `Replica.Node.CreatePrepareMsg` | core/core.go:145-170 | signs a vote for the current view and the digest stored there |
| `Replica.Node.CastVote` | core/core.go:135-142 | the primary handles its own vote, a backup sends it |
| `Replica.Node.HandlePrepareMsg` | core/core.go:212-239 | one vote per sender for the current view is recorded |
| `Replica.Node.HandlePrepareVote` | core/core.go:241-278 | stores both shares; fast certificate while the timer runs, slow one after it stopped, panic without timer |
| `Replica.Node.CheckIfPrepareQc` | core/core.go:279-321 | a slow certificate from 2f+1 stored shares, once |
| `Replica.Node.IssueFastPrepareQc` | core/core.go:266-273 | a fast certificate, marked as sent |
| `Replica.Node.FastTimerExpires` | core/core.go:59-67 | the timer stops, then the slow certificate is tried |
| `Replica.Node.HandlePrepareQc` | core/core.go:354-402 | verified certificates are stored once, the entry climbs, a commit is signed for it |
| `Replica.Node.CheckIfPrepared` | core/core.go:404-420 | from the received stage: committed by a fast certificate, else prepared by a slow one |
| `Replica.Node.SendCommitMsg` | core/core.go:187-199 | signs and sends the commit for the certificate |
| `Replica.Node.HandleCommitMsg` | core/core.go:441-478 | one commit per sender is recorded |
| `Replica.Node.HandleCommitVote` | core/core.go:479-543 | 2f+1 commits for one vote make a commit certificate, once |
| `Replica.Node.HandleFastPrepareQc` | core/core.go:546-581 | verified fast certificates are stored once, with no check of window or view |
| `Replica.Node.HandleCommitQc` | core/core.go:582-632 | stored once, before it is verified against the stored prepare certificate |
| `Replica.Node.CheckIfCommitted` | core/core.go:635-657 | a prepared entry with a commit certificate that verifies is committed and executed |
| `Replica.Node.ExecuteRequest` | core/core.go:663-684 | buffers the digest and runs the loop to the first number with nothing buffered |
| `Replica.Node.Checkpoint` | core/core.go:686-715 | every T-th number is recorded and announced |
| `Replica.Node.RecvCheckpoint` | core/core.go:717-762 | counts matching and differing states and moves the watermark on 2n/3+1 matching ones |
| `Replica.Node.MoveWatermarks` | core/core.go:764-768 | sets h and nothing else |
| `Replica.Node.Renumber` | core/core.go:778-785 | the number after which to change the view, from the new nextSN |
| `Replica.Node.CalPQset` | core/viewchange.go:51-72 | one pre-prepare and one certificate per number above h, the last enumerated |
| `Replica.Node.SendViewChange` | core/viewchange.go:9-48 | leaves the view for the next one and reports what is stored, with up to 2f+1 checkpoints at h |
| `Computations.CollectCheckpoints` | core/viewchange.go:26-37 | the first so many checkpoints of the enumeration with the replica's own state |
| `Computations.CheckViewChange` | core/viewchange.go:80-120 | accepts exactly if every pre-prepare is of an earlier view and inside (h, h+K), every certificate verifies and every checkpoint is for h |
| `Replica.Node.RecvViewChange` | core/viewchange.go:122-190 | stores a correct, new message, catches up, and as new primary acts on a quorum |
| `Computations.ScanAhead` | core/viewchange.go:149-159 | the senders of view-changes for later views, and the smallest such view |
| `Computations.CountForView` | core/viewchange.go:170-175 | how many view-changes are stored for the current view |
| `Replica.Node.CatchUp` | core/viewchange.go:161-168 | f+1 senders ahead: a view-change for the smallest of their views |
| `Replica.Node.SendNewView` | core/viewchange.go:192-242 | publishes and enters a new view if the assignment succeeds and none was sent |
| `Replica.Node.RecvNewView` | core/viewchange.go:244-258 | a new view from the right primary, not stored before, is stored and processed |
| `Replica.Node.ProcessNewView` | core/viewchange.go:260-328 | enters the view and handles the entries above h as pre-prepares, in ascending order |
| `Computations.CollectViewChanges` | core/viewchange.go:330-339 | all stored view-changes for the view |
| `Computations.SelectInitialSequence` | core/viewchange.go:341-354 | the largest checkpoint reported |
| `Computations.ScanQuorum` | core/viewchange.go:367-380 | finds the first message with both entries, else counts the digests reported |
| `Computations.AssignSequenceNumbers` | core/viewchange.go:356-411 | the loops compute the assignment for sn+1 .. sn+K |
| `Computations.GetMapkey` | core/utils.go:67-78 | the keys, each once, in ascending order |
| `Computations.CountCheckpoints` | core/core.go:733-747 | how many stored checkpoints agree, and which states there are |
| `Quorum.Calibrated` | config_gen/main.go:172-174 | fastNum + viewChangeQuorum - n - n/3 is exactly prePrepareSubsetCount |
| `Quorum.CertificatesOverlap` | config_gen/main.go:162-172 | any two certificates, slow or fast, share a correct replica, for every n |
| `Quorum.SlowOverlapExactly` | config_gen/main.go:162-171 | two slow quorums are bound to share a correct replica exactly if fewer than a third are faulty |
| `Quorum.ShareCount` | core/core.go:283-314 | 2f+1 shares suffice for the key exactly if n mod 3 is not 2, and equal its threshold exactly if it is 1 |
| `Quorum.ViewChangeReachable` | config_gen/main.go:168-173 | exactly when a view-change quorum is reachable with all bg replicas silent |
| `Quorum.CheckpointQuorum` | core/core.go:755 | 2n/3+1 replicas are more than two thirds and more than n/3 of them correct |
| `Preservation.StepKeeps` | core/node.go:261-364 | under any message from anyone a step keeps the invariant and only grows what it records |
| `Reachability.NextKeeps` | core/node.go:261-364 | every step of the cluster keeps it sound: all that is stored or sent rests on signatures that exist |
| `Reachability.ReachableSound` | core/node.go:261-364 | hence every state of every run is sound |
| `Agreement.CertificatesAgree` | core/core.go:112-128 | over every run, two verifying prepare certificates for one number and view carry the same non-empty digest |
| `Agreement.CommitCertificatesAgree` | core/core.go:380-401 | two commit certificates for one number and view certify the identical prepare certificate |
| `Agreement.CommittedByQuorum` | core/core.go:404-420 | no entry is committed without a fast quorum of votes or a quorum of commits over its own prepare certificate |
| `Agreement.ExecutedAgreeExactly` | core/core.go:404-420 | under any primary, replicas that executed a number hold certificates for one digest, and each executed that digest exactly if its certificate matches what it had stored |
| `Agreement.LogsArePrefixes` | core/core.go:663-684 | under a correct first primary, executed logs of any two correct replicas, each taken at any time it is in the first view, are prefixes of one another, whatever all others do and even if the primary has left the view |
| `Agreement.ExecutedInFirstView` | core/core.go:663-684 | while the first primary is in the first view, replicas in that view have executed nothing of another |
| `Agreement.ExecutedMatchesCertificate` | core/core.go:404-420 | and each digest executed as of the first view is that of every certificate stored with it, even if primary and voters have left the view since |
| `Watermarks.WatermarkBehindExecution` | core/core.go:686-768 | a watermark h > 0 means more than n/3 correct replicas executed up to h, and h is a multiple of T |
| `Watermarks.OneEach` | core/core.go:731-747 | checkpoints that agree on number and state come from different replicas, so counting them counts replicas |
| `Watermarks.ReportedExecuted` | core/viewchange.go:16-20 | a watermark a correct replica ever reported in a view-change has more than n/3 correct executors behind it |
| `Succession.StepVotes` | core/core.go:135-170 | whatever arrives, without automatic view changes a step votes only for what the new view of the vote's view assigns, or on a pre-prepare for the number from that view's primary |
| `Succession.CertifiedByPrimary` | core/viewchange.go:260-328 | over every run, a prepare certificate of a view with a correct primary, whatever its digest, is for what its new view assigned to the number or for a number it proposed |
| `Succession.CertifiedAsAssigned` | core/viewchange.go:260-328 | so only the assigned batch can be certified for a number that primary has not proposed |
| `Succession.FastCommitCrossesExactly` | core/viewchange.go:356-411 | what the new view certifies for a number a fast quorum had voted for is that quorum's digest exactly if the decider carried its batch |
| `Succession.SlowCommitCrossesExactly` | core/viewchange.go:367-383 | likewise for a digest a quorum had signed commits for |
| `Succession.LogsAgreeAcrossViewsExactly` | core/core.go:663-684 | replicas that executed a number before and after the view change, with certificates that match, executed the same batch exactly if the decider carried the one committed |
| `Numbering.WatermarksWithoutWrap` | core/core.go:770-772 | without overflow the wrapping test is h < sn <= h+K |
| `Numbering.StepNumbered` | core/core.go:29-43 | every step keeps proposals ascending and nextSN within one past the window, and moves neither nextSN nor h back |
| `Numbering.CountersOnlyGrow` | core/core.go:764-768 | over every history h and nextSN never decrease |
| `Numbering.ProposalsNeverReuse` | core/core.go:29-32 | no fresh proposal reuses a number, in any view |
| `Numbering.WrapMovesBackExactly` | core/viewchange.go:279 | where the window reaches 2^32: exactly when entering a view, or a proposal, moves nextSN back |
| `Numbering.ProposesExactly` | core/core.go:38-76 | a batch is proposed, under the next number and with its timer running, exactly by the primary of an active view with room in the lower half of its window; otherwise nothing happens |
| `Checkpoints.CheckpointMovesExactly` | core/core.go:717-762 | a checkpoint in the window is stored and becomes h exactly if with it 2n/3+1 announce its state and at most f+1 states are announced |
| `Checkpoints.OtherwiseStays` | core/core.go:764-768 | no other event moves h |
| `Checkpoints.QuorumMovesWatermark` | core/core.go:755-761 | over every history, once 2n/3+1 agreeing checkpoints for a number and no others have been taken in, in any order, h has reached it |
| `ViewHistory.OncePerView` | core/viewchange.go:9-48 | at most one view-change and one new-view per view, the former in ascending order |
| `ViewHistory.ViewsOnlyGrow` | core/viewchange.go:13 | a correct replica's view never decreases |
| `ViewHistory.CatchUpFollowsCorrect` | core/viewchange.go:149-168 | the f+1 rule enters a later view, no later than one a correct replica asked for |
| `Following.ViewGrowsExactly` | core/viewchange.go:122-168 | on a view-change, if no new view is published, the view grows exactly if f+1 senders are ahead, to the smallest view they are in, and the replica asks for just that; a message that is not heeded changes nothing |
| `Following.StepFollowsExactly` | core/viewchange.go:161-190 | it follows first and then publishes exactly if a quorum has asked it to lead and what they report lets it |
| `Following.StepLeavesExactly` | core/core.go:79-123 | on any other event the view is left exactly for its timer, a pre-prepare past the number to change after, from another sender or in conflict, a certificate from another sender, or execution past that number |
| `Following.FirstViewScheduled` | core/node.go:137-206 | with automatic view changes a replica in the first view has executed less than T + T/2 numbers |
| `Entering.NewViewEnteredExactly` | core/viewchange.go:260-328 | a waiting replica delivered its view's new view is active, holds every entry in its window with batch, hash and the primary as sender, and has voted for each and sent the votes; a primary dies exactly if its own vote completes a fast quorum that is not genuine |
| `Entering.NewViewEndsExactly` | core/core.go:112-123 | if it lives and executing does not end the view, it is in the view afterwards exactly if no entry in its window conflicts with a digest it holds |
| `Entering.PublisherEntersExactly` | core/viewchange.go:230-242 | a new primary that publishes enters in the same way, with a timer running for each entry |
| `Entering.NewViewStoredExactly` | core/viewchange.go:244-258 | a new view that is old, unoriginal or not from its primary changes nothing, and one that comes to an active replica is only stored |
| `Reporting.TimeoutReportsExactly` | core/viewchange.go:9-72 | at its timer a replica sends one view-change, with one entry for exactly the numbers above h it holds and as many agreeing checkpoints as a quorum takes |
| `Reporting.ViewChangeStoredExactly` | core/viewchange.go:80-145 | which view-changes are stored |
| `Reporting.CertificatesTakenExactly` | core/core.go:354-632 | which certificates are stored: slow ones verified in window and view, fast ones verified anywhere, commit ones unverified in window and view |
| `Reporting.TakenClimbs` | core/core.go:404-684 | whatever the window and the view, an entry that takes in a message climbs exactly to the stage its certificates give, and what is committed, and nothing else, is buffered for execution with its digest |
| `Reporting.UnadmittedIgnored` | core/core.go:213-239 | votes and commits out of the view, out of the window or repeated are neither recorded nor answered |
| `Acceptance.OwnViewChangeAccepted` | core/viewchange.go:80-120 | whatever the map order, peers accept a correct replica's view-change exactly if all it holds above h is of a reached view and below h+K; with its own order, exactly if what it reports is |
| `Acceptance.LaterProposalBlocks` | core/core.go:103-131 | a pre-prepare of a later view is stored by a correct backup and gets its view-change rejected |
| `Acceptance.NewViewBlocksViewChange` | core/viewchange.go:279-326 | after a new view that starts at the replica's watermark, every view-change it sends is rejected until the watermark moves |
| `Recovery.AtMostTwoWinners` | core/viewchange.go:385-402 | at most two digests can reach prePrepareSubsetCount |
| `Recovery.AssignmentTotal` | core/viewchange.go:356-411 | assignment fails exactly if some number has two candidates and no certificate, else covers sn+1 .. sn+K, each batch of known origin |
| `Recovery.PublishedView` | core/viewchange.go:192-242 | a published new view is the assignment of a quorum of distinct, accepted view-changes for its view |
| `Recovery.AssignedByDecider` | core/viewchange.go:367-398 | one message decides a number: the first with both entries, else the last that reports the winner; the batch is the digest's exactly if that message carries it |
| `Recovery.FastCommitSurvivesExactly` | core/viewchange.go:356-411 | a digest a fast quorum voted for keeps its number in a later new view exactly if the number is in range and the decider carries its batch |
| `Recovery.FastCommitSurvives` | core/viewchange.go:356-411 | hence it does if it is in range and the whole quorum reports consistently |
| `Recovery.SlowCommitSurvivesExactly` | core/viewchange.go:367-383 | a digest with a commit quorum is decided by a message with both entries, and keeps its number exactly if it is in range and that message carries its batch |
| `Recovery.SlowCommitSurvives` | core/viewchange.go:367-383 | hence it does if it is in range and the whole quorum reports consistently |
| `Recovery.ForgedPairDecides` | core/viewchange.go:80-119 | one faulty member of the quorum, enumerated first, can have any batch assigned to a committed number |
| `Recovery.BelowRangeExactly` | core/viewchange.go:341-354 | a number is below the range exactly if some member reports a watermark that has reached it; if a correct one does, more than n/3 correct replicas executed it |
| `Recovery.LiarLifts` | core/viewchange.go:108-117 | a view-change without checkpoints is accepted with any watermark and lifts the range past any number |
| `Recovery.FreshNumbersAboveExactly` | core/viewchange.go:279-281 | the next number lies above all assigned ones exactly if h is not behind the new view's checkpoint |
| `Recovery.HandledAscending` | core/utils.go:67-78 | entries of a new view are handled in ascending order |
| `IssueHistory.StepLawful` | core/core.go:241-290 | a step sends a fast certificate only while its timer runs and a slow one only after it stopped, each from a recorded quorum, and only on a vote, a timeout or the replica's own votes |
| `IssueHistory.EveryCertificateLawful` | core/core.go:59-67 | over every history, every certificate sent was sent lawfully at some step and has its quorum on record still |
| `Issuing.NoQuorumMissed` | core/core.go:241-290 | after every step enough stored votes (fast ones before the timer ran out, 2f+1 for the own digest after) or commits mean the certificate has been issued; at most one per number and view |
| `Tallying.VoteCountsExactly` | core/core.go:241-290 | a properly signed vote among honest ones kills nobody, is recorded under both keys, and brings the certificate that verifies exactly if it is due: a fast one while the timer runs, a slow one after |
| `Tallying.TimeoutAnswersExactly` | core/core.go:59-67 | when its timer ends it is stopped, and the slow certificate goes out exactly if 2f+1 voters are recorded and none has |
| `Tallying.CommitCountsExactly` | core/core.go:479-543 | a properly signed commit among honest ones brings the commit certificate exactly if it is the 2f+1st and none has gone out |
| `Tallying.HonestVotesCertify` | core/core.go:241-321 | over every history in which all votes for a number and view are honest ones for one digest: once a quorum is recorded, a certificate for that digest is in the outbox and verifies |
| `Sending.SaidExactly` | core/core.go:172-199 | over every history, commits, a backup's votes, commit and prepare certificates, checkpoints and new views are signed, marked or executed exactly if they have been sent; a replica out of its view has asked for the one it is in |
| `Execution.AlwaysDefined` | core/core.go:669-671 | throughout the loop the entry executed holds its pre-prepare |
| `Execution.StepDrains` | core/core.go:669 | no step leaves anything executable waiting |
| `Execution.ExecutionInSequence` | core/core.go:663-684 | under any messages: numbers 1 .. lastExec, each once, in order, certified, nothing executable left |
| `Execution.ExecutedForGood` | core/core.go:674 | what was executed is never changed |
| `Delivery.DeliveryOrderIrrelevant` | core/core.go:112-131 | certificates and execution depend only on the set of messages delivered, in any order and number |
| `Delivery.CompleteDelivery` | core/core.go:546-657 | a number is committed exactly if its certificates are in, executed exactly if all before it are complete too |
| `Delivery.BackupSurvives` | core/core.go:79-143 | a backup never dies of these messages |
| `MixedPaths.CommitsExactly` | core/core.go:404-420 | over any deliveries of pre-prepare, slow, fast and commit certificate: committed exactly if the fast one led or both slow-path ones are in, else prepared exactly if the slow one is |
| `MixedPaths.OrderMattersExactly` | core/core.go:546-657 | the order matters exactly while slow and fast are in without the commit certificate |
| `MixedPaths.OrderCanMatter` | core/core.go:404-420 | so the same three messages can commit one replica and stall another |
| `Findings.VoteCastExactly` | core/core.go:135-170 | a pre-prepare that passes the checks leads to one vote, for the view after executing - the next one exactly if execution passed the number to change after - and for the digest proposed or else the one stored for that view |
| `Findings.SignsTwice` | core/core.go:145-170 | a correct backup can sign a vote for no digest and one for a digest at the same number and view |
| `Findings.NewViewPublishedExactly` | core/viewchange.go:192-242 | a new primary publishes exactly if it knows no new view, some checkpoint is reported, the range ends and every number in it is decidable |
| `Findings.StuckWithoutCheckpoint` | core/viewchange.go:202-207 | no new view is published while nobody reports a checkpoint |
| `Divergence.LogsCanDiverge` | core/core.go:404-420 | a run within the fault bound in which correct replicas execute different batches as number 1 |
| `Divergence.CertificateForNothing` | core/core.go:145-170 | a run within the fault bound that ends with verifying slow certificates for no digest and for a batch at one number and view |
| `Divergence.CertificatesCanDisagree` | config_gen/main.go:162-171 | with three replicas and one faulty, a run ends with two verifying slow certificates for one number and different batches |
| `Strays.SomeVoteKillsExactly` | core/core.go:213-264 | some properly signed vote of j makes a replica panic exactly if it is active and has a number in its window without a vote of j in this view |
| `Strays.OneVoteEndsRun` | core/core.go:241-264 | from any reachable state of that kind, two steps lead to one in which the correct replica has died |
| `Strays.CommitReportedExactly` | core/viewchange.go:51-72 | a view-change reports both entries for a number its sender signed a commit for exactly if it holds a pre-prepare for it |
| `Strays.CommitsUnreported` | core/core.go:354-402 | a run within the fault bound in which a commit certificate exists and a correct committer's view-change, sent before it signed, reports nothing |

## Left out

- Networking, framing, connections, RPC and clients: a set of messages sent stands for the network.
- Cryptography and encoding: signatures are unforgeable, digests injective, and a threshold signature exists exactly if enough shares do; encoding a nil certificate for verification counts as a failed verification.
- Share recovery: assembling from more shares than needed, some of them bad, is taken to succeed whenever enough are genuine; the partial signatures are not checked before, as in the source.
- Wall-clock time: durations of timers are not modelled; a timer may expire at any moment after it is armed, and the clock appears only in the timestamp of a prepare certificate.
- Badly signed messages: only messages whose ed25519 signature verifies are delivered; on any other the source panics (core/node.go:264-336).
- Goroutines and locks: each handler, and each timer, is one atomic step; `go n.checkIfPrepared` and `go n.checkpoint` run as part of the step that starts them.
- Batch cutting, the request pool and random omission by misbehaving replicas: a batch may arrive at any time, and an omitted message is one never delivered.
- `ViewChangeQuorumMsg`: nothing sends it.
- Key generation, role selection and the other outputs of the configuration generator: only its formulas are modelled.
- View numbers do not wrap at 2^32, and execution ends with number 2^32-1; sequence numbers otherwise wrap as in the source.
- Panics and the one loop that cannot end (an assignment up to number 2^32-1) set a flag and stop the replica.
- Nested vote tables: the maps keyed by id, digest and replica are keyed by the pair of id and digest, then by replica.
- Agreement.LogsArePrefixes: for the first view under a correct primary; with a faulty one it is false, and ExecutedAgreeExactly has the condition under any.
- Recovery.FastCommitSurvivesExactly: for correct members of the quorum that report the number from the vote's view or with its digest; of the entries of several views a replica reports the last in map order.
- Recovery.SlowCommitSurvivesExactly: for correct committers in the quorum that committed before their view-change and report a pre-prepare for the number; CommitsUnreported is a run in which one did not.
- Succession.CertifiedByPrimary: without automatic view changes, which let a replica vote in a view it has not entered, for a digest stored there before.
- Succession.LogsAgreeAcrossViewsExactly: for numbers the new primary has not proposed itself; FreshNumbersAboveExactly says when it cannot reuse an assigned one.
- Entering.NewViewEnteredExactly: where no entry of the new view, nor anything buffered, reaches the number to change views after.
- New views from a faulty primary: receivers do not check them, so nothing is claimed about their contents.
- Deliveries in Delivery and MixedPaths: where executing the number does not itself end the view, as it can with automatic view changes on.
- Numbering.StepNumbered: for windows below 2^32; beyond it the property is lost exactly as WrapMovesBackExactly says.
