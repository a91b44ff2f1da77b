# xtunnel: a model of its channel protocol, pair warmer and queues

xtunnel carries many logical connections over several WebSocket channels. Every connection races the
channels: the first copy of a message to arrive fixes the channel for one direction, both ends broadcast
until they know their channel and unicast afterwards, and a *hot pair* that was raced in advance skips the
selection. This project models that protocol on both ends, the client's list of hot pairs, the queues on
both sides with their byte accounting and backpressure, the frame and notification codecs, and the server's
tables, and proves what they keep in every run.

`dafny verify dfyconfig.toml` checks everything.

## Modules

| module | what it models | main results |
|---|---|---|
| `Link` | messages and per-channel FIFO queues | |
| `Forward` | forward selection: client and server records, every delivery order, classic, hot, failed-hot and prebind openings | both ends agree; streams arrive as prefixes; a race has one result |
| `ForwardRecords` | the same with any number of server records, one after the other | when exactly the ends stay in agreement; what each record and the client still accept in order |
| `ForwardSettles` | what a forward connection comes to once its queues are empty | both ends know both channels; closing leaves no record behind |
| `Reverse` | reverse selection with presets and one repair | both ends agree; at most one repair; streams arrive as prefixes |
| `ReverseRecords` | the same with any number of client records | when exactly the ends stay in agreement, and when exactly the streams can break |
| `ReverseSettles` | what a reverse connection comes to once its queues are empty | both ends know both channels, the dial has its verdict; closing leaves no record behind |
| `PairList`, `PairRefresh`, `PairWarmer` | the hot pair list as a value, the five-stage refresh, and the class that edits the list in place | the primary stays elected under every interleaving of locked sections; a refresh elects the winner of its race |
| `PairSections` | what each section and a whole refresh leave of the list | which pairs stay Ready, exactly; draining pairs are in use |
| `PairRace` | `refs` and `state` of one pair, atomic operation by atomic operation | when exactly a state goes back; nothing is stranded; when exactly a pair in use is removed |
| `Dialing` | dialing over pairs, unregistering, and the fallback | references equal holders |
| `Wire` | frames, hot pair notifications, hot pair connection IDs | exact round trips; decoding yields the longest valid prefix |
| `Pieces`, `Batches`, `WriteWorker` | the client's write worker and its aggregation | joining preserves meaning; every job is released exactly once |
| `QueueBytes` | the client's global byte counter, atomic operation by atomic operation | conservation, limit, no clamping |
| `Backpressure` | the server's three-level hysteresis, recursive with the queues it measures | conservation, level bands, amortised number of notices |
| `HotPairTable` | the server's hot pair table with lazy expiry | answers like a log that is never swept |
| `TargetBuffer` | the switch from buffering to direct writes | exactly once; when exactly order is kept |
| `ServerTable` | the server's channel and connection tables | only live channels in use; what closing a channel clears |
| `ServerTableRecords` | the tables against the protocols | every record of the tables steps as `Forward.Server` or `Reverse.Server` does, in every run |

State that the source updates in place is a class whose methods are proved against functions on values
(`Forward.ClientConn`, `PairWarmer.PairWarmer`, `Backpressure.ServerPool`, ...). Runs are folds of steps
over those values, and the theorems are about every run.

## What the steps are

- Selection: delivering one message, one broadcast, one close are single steps; channels are FIFO queues,
  and dropping the message at the head of a queue is a step of its own.
- Pair warmer: each section under the lock is one step (`PairList.Step`); `PairRace` goes down to single
  atomic operations, with `discardCandidatePair` as one step.
- A write to a socket succeeds or fails as an input of the step that makes it.
- Backpressure, dialing and the server tables: one call, one step. `TargetBuffer`: one lock section, one step.
  `QueueBytes`: one load or one swap.

## Where the code differs from what one might expect

- A pair in use *can* be removed from the list: a release that brought `refs` to zero while the pair was Ready
  looks at the state only later, and by then the pair may have been acquired again and sent draining
  (`PairRace.ReleaseCanTear`, exact conditions `PairRace.ReleaseTearsIff` and `PairRace.StepTearsIff`; no other way out removes a pair in
  use, `PairRace.OnlyStaleReleasesTear`).
- A closed pair can become draining again: `InvalidateChannel` loads the state twice and a release may close the
  pair in between (`PairRace.InvalidateCanRetreat`), and `discardCandidatePair` looks at no state at all
  (`PairRace.DiscardCanRetreat`). There is no third way (`PairRace.RetreatsIff`).
- One prune pass can step over the neighbour of a removed pair (`PairList.PrunePassSkips`, exact condition
  `PairList.PrunePassCompleteIff`). Trimming stops at a tail that is in use, so the Ready count can stay above
  the wanted number; `PairRefresh.TrimmedReadies` says when.
- While a refresh places its candidate, the primary can be a pair that cannot serve although others can
  (`PairList.PromoteElectsIff`, `PairList.ReplaceElectsIff`, `PairList.DiscardElectsIff`).
- If the server retires its record and a late copy of the opening message builds a second one, the ends can
  disagree: at the rebuilding (`Forward.SecondRecordDisagrees`) or later, through an announcement of the record
  before (`ForwardRecords.StaleAnnouncementDisagrees`). `ForwardRecords.EndsAgreeThroughoutIff` is exact for
  every run. A race can then report one channel for both directions (`Forward.SecondRecordSpoilsRace`,
  `Forward.RaceSpoiledIff`), and a payload can reach the target twice (`ForwardRecords.PayloadPassedOnTwice`):
  each record takes the stream from its beginning (`ForwardRecords.RecordsTakePrefixes`).
- A client that writes after it has unregistered broadcasts again, so a later record can start in the middle of
  the stream (`ForwardRecords.StrayWriteLeavesGap`); data that an earlier record unicast elsewhere leaves a gap
  for the client (`ForwardRecords.AsideLeavesGap`).
- A late copy of a reverse dial builds a second client record after the first is gone, also when the dial has
  been accepted, and the ends can disagree (`ReverseRecords.SecondClientRecordDisagrees`, exact condition
  `ReverseRecords.EndsAgreeThroughoutIff`). Streams survive that, except after a failed preset unicast on two or
  more channels (`ReverseRecords.StreamsCanBreakIff`): the server can then adopt the second record and pass on the
  second target's bytes with the first's missing.
- After a failed preset unicast the reverse presets stay in place, so the ends disagree until the client's
  announcement is processed (`Reverse.AnsweredElsewhere`), and for good if it is dropped
  (`Reverse.FailedPresetNeedsItsAnnouncement`). `Reverse.EndsAgree` is exact.
- The deferred calls of `forwardTargetToClient` run in the opposite order of what its comment says: the record
  is unregistered before MsgTCPClose is sent, so the close message is never sent (`Forward.TargetEndIsSilent`).
- A notice can be overtaken by the pause that its own notices trigger, and is then the last word on the channels
  it had not reached (`Backpressure.NoticeIsHeardIff`, `Backpressure.RecoveryCanBeOvertaken`). For limits of 1 to 3 bytes the level can
  be left standing over empty queues (`Backpressure.ElevatedOverEmptyIff`).
- A fall to Normal need not last: its own notices can raise the level again (`Backpressure.RecoveryCanRelapse`).
- Half-closing a stream ends the server's record like a full close (`ForwardSettles.StopEndsTheRecord`).
- A direct write can overtake the flush of buffered data (`TargetBuffer.DirectWriteCanOvertake`).
- A dial whose target is the prebind target itself leaks a reference (`Dialing.DialingThePrebindTargetLeaks`).
- Closing a channel sweeps the hot entries of *every* client that name the same channel number
  (`ServerTable.OtherHotEntrySurvivesIff`), although channel numbers are per client.

## Model

| member | source | states |
|---|---|---|
| `Link.SendAt` | server_pool.go:344-365 | a send reaches every channel until one is chosen and that channel only afterwards, and leaves every other queue as it was |
| `Forward.ClientConn.Dial` | pool.go:948-1014 | a hot dial presets the uplink and keeps the pair, a failed one takes both back, and a broadcast that reaches no channel unregisters the connection |
| `Forward.ClientConn.NoteUplink` | pool.go:901-915 | the uplink is written once, and only for a registered connection |
| `Forward.ClientConn.SelectDownlink` | pool.go:1139-1195 | first arrival fixes the downlink, a held pair overrides it, a prebind race gives way on its own uplink |
| `Forward.ClientConn.Receive` | pool.go:1375-1503 | the new record, the reply, whether the payload is accepted and whether a race result is reported, for every message, also when the write to the application fails |
| `Forward.ServerConn.Receive` | handler.go:23-264 | the first copy fixes the uplink and is announced unless the hot entry matches; later copies, foreign channels and a full buffer are handled as in the code |
| `Forward.EndsAgree` | handler.go:43-84 | in every run, with any messages dropped, on all four openings: ends that both know a direction's channel name the same one, while one server record lives |
| `Forward.RaceHasOneResult` | handler.go:295-314 | a prebind race announces one uplink, the client reports at most one result, and it never uses one channel both ways |
| `Forward.StreamsAreKept` | pool.go:1472-1485 | without drops and with one server record, each end accepts a prefix of what the other sent: in order, no duplicate, across the switch from broadcast to unicast |
| `Forward.QuietEndsHaveEverything` | proxy_dialer.go:84-94 | with empty queues and nothing dropped, living ends have accepted everything; a client without a downlink too, unless it has no target or is a race |
| `Forward.TargetEndIsSilent` | handler.go:340-356 | when the target closes, the deferred calls remove the record before the close message is sent, so nothing is sent; in the other order a living record would have sent it |
| `Forward.SecondRecordDisagrees` | handler.go:41-58 | a reachable state with a second server record in which the ends disagree on the uplink |
| `Forward.RebuildAgreesIff` | handler.go:43-84 | the step that rebuilds a record leaves the ends in agreement exactly when a registered client knows no other uplink, and a promoted downlink is not another than its own |
| `Forward.SecondRecordSpoilsRace` | handler.go:295-334 | a reachable race, with a record that expired between two copies, that reports one channel for both directions |
| `Forward.RaceSpoiledIff` | pool.go:1375-1458 | a race reports one channel both ways exactly when an announcement names its arrival channel while the client has noted another uplink and chosen no downlink |
| `ForwardRecords.StepAgreesIff` | pool.go:1375-1458 | from any agreeing state with any records before, a step sets the ends apart exactly when it builds a record on another channel than the client's, delivers a stale announcement or a stale choice, or makes the client choose beside the server's downlink |
| `ForwardRecords.EndsAgreeThroughoutIff` | handler.go:41-84 | every run, with any number of server records and any drops, agrees all the way exactly when it has no such step |
| `ForwardRecords.StaleAnnouncementDisagrees` | handler.go:41-84 | a run without drops in which a rebuilt record agrees and the announcement of the record before it then sets the ends apart |
| `ForwardRecords.RecordsTakePrefixes` | handler.go:153-202 | in every run without drops, and with any number of server records: what the living record has accepted is a prefix of what the client wrote, unless the client wrote after unregistering with an uplink noted |
| `ForwardRecords.WriteKeepsLineIff` | proxy_dialer.go:84-94 | a write keeps what a record on a channel has and will have a prefix exactly when it does not go there, nothing is missing there, or it repeats what is missing next |
| `ForwardRecords.PayloadPassedOnTwice` | handler.go:41-58 | a run without drops in which two records pass the same payload on |
| `ForwardRecords.StrayWriteLeavesGap` | proxy_dialer.go:84-94 | a run without drops in which a client writes after unregistering and a later record misses the beginning |
| `ForwardRecords.ClientTakesPrefix` | server_pool.go:344-365 | in every run without drops, and with any number of server records: what the client has accepted is a prefix of what all of them sent, unless some data was unicast on another channel than the client's downlink |
| `ForwardRecords.AsideLeavesGap` | server_pool.go:344-365 | a run without drops in which such data is missing |
| `ForwardSettles.QuietEndsAreSettled` | pool.go:1432-1460 | without drops, with one announced record and chosen downlinks still open: when the queues are empty both ends know the uplink and the same downlink; a client has chosen one unless it has no target or races on a single channel, and a race has reported its pair |
| `ForwardSettles.AnnouncementIsAnswered` | pool.go:1432-1450 | the announcement that fixes the downlink is answered over the announced uplink with exactly that downlink, and when it fixes none |
| `ForwardSettles.UnregisteredIff` | pool.go:1462-1503 | what ends a registration, exactly, and the close message that a failed write sends back |
| `ForwardSettles.DataIsTakenIff` | handler.go:153-202 | data is accepted on the chosen channel and nowhere else, at both ends |
| `ForwardSettles.StopEndsTheRecord` | proxy_dialer.go:99-121 | in every run without drops and with one record: when the client hangs up, half-closes or cannot pass data on, no record is left once the queues to the server are empty |
| `ForwardSettles.FailedDialEndsTheClient` | handler.go:97-118 | in every run without drops: after a dial that failed the client is not registered once the queues to it are empty |
| `Reverse.ServerReverseConn.constructor` | reverse_server.go:78-152 | a hot entry presets both channels, otherwise none is chosen |
| `Reverse.ServerReverseConn.Settle` | reverse_server.go:55-61 | the first verdict stands, and a refusal ends the connection |
| `Reverse.ServerReverseConn.Receive` | reverse_server.go:194-259 | adoption of the first announcement, one repair of a preset, data only from the receiving channel, and the end of the connection when the application takes no data |
| `Reverse.ReverseConn.Receive` | reverse.go:101-238 | the client's side: hot match or announcement on connect, the send channel is set once, data only from the receiving channel, and the end when the target takes no data |
| `Reverse.EndsAgree` | reverse_server.go:199-226 | in every run with one client record and any messages dropped (more records: `ReverseRecords`): two living ends agree exactly unless the preset unicast failed, the client answered from another channel than the preset one, and its announcement has not been adopted; without drops an accepted dial agrees |
| `Reverse.RepairsAtMostOnce` | reverse_server.go:199-226 | in any run an announcement is adopted over chosen channels at most once, and never on a classic dial |
| `Reverse.AdoptionIsFinal` | reverse_server.go:199-226 | once chosen with no repair left, the channels never change again, whatever arrives |
| `Reverse.StreamsAreKept` | reverse.go:117-145 | without drops and with one client record, each end accepts a prefix of what the other sent, through selection, preset and repair |
| `Reverse.QuietEndsHaveEverything` | reverse_server.go:155-180 | with empty queues and nothing dropped, living ends have accepted everything |
| `Reverse.AnsweredElsewhere` | reverse_server.go:105-123 | after a failed preset unicast the ends disagree until the announcement is processed |
| `Reverse.FailedPresetNeedsItsAnnouncement` | reverse_server.go:199-240 | if that announcement is dropped, an accepted connection disagrees |
| `ReverseSettles.QuietEndsAreSettled` | reverse_server.go:194-240 | without drops and with one client record: when the queues are empty two living ends send where the other receives, in both directions, and the dial is accepted exactly if it was done |
| `ReverseSettles.AdoptionIsAnswered` | reverse_server.go:203-226 | an adopted announcement is answered on the announced channel with the channel it came over, and any other changes nothing |
| `ReverseSettles.DataIsTakenIff` | reverse_server.go:241-253 | data is accepted from the receiving channel alone, by a client only once its dial is done |
| `ReverseSettles.EndsWithVerdict` | reverse_server.go:55-61 | in every run a dial has a verdict when its record goes |
| `ReverseSettles.StopEndsTheServer` | reverse_server.go:241-258 | in every run without drops: when a client record hangs up or cannot pass data on, the server's record is gone once the queues to it are empty |
| `ReverseSettles.FailedDialIsRefused` | reverse_server.go:228-240 | in every run without drops: when the first record's dial fails, the server's record is gone once the queues to it are empty |
| `ReverseSettles.ServerQuitEndsTheClient` | reverse.go:189-238 | in every run without drops and with one record at most: when the server hangs up, also before any client record exists, no client record is left once the queues to it are empty |
| `ReverseRecords.StepAgreesIff` | reverse_server.go:199-226 | from any agreeing state with any records before, a step sets the ends apart exactly when it builds a client record beside the server's choice, hands it a stale answer, or adopts a stale announcement |
| `ReverseRecords.EndsAgreeThroughoutIff` | reverse.go:63-145 | every run, with any number of client records and any drops, agrees all the way exactly when it has no such step |
| `ReverseRecords.SecondClientRecordDisagrees` | reverse.go:63-78 | a run without drops in which an accepted dial disagrees with a second client record |
| `ReverseRecords.RecordsKeepStreams` | reverse.go:101-145 | in every run without drops, and with any number of client records, each end accepts a prefix of what the other sent, unless the server adopted a later record's announcement in place of the pair that the first record had taken |
| `ReverseRecords.StreamsCanBreakIff` | reverse_server.go:105-123 | some run without drops breaks a stream exactly when the preset unicast failed and there is a channel beside the preset one |
| `ReverseRecords.ExposedCanLeaveGap` | reverse_server.go:199-226 | on every such dial, a run in which the server passes on the second target's bytes with the first's missing |
| `PairWarmer.PairWarmer.EnsurePrimary` | pair_warmer.go:193-211 | the first Ready pair is elected unless the primary still serves |
| `PairWarmer.PairWarmer.AcquirePrimary` | pair_warmer.go:98-127 | hands out the first Ready pair and counts one reference, or changes nothing |
| `PairWarmer.PairWarmer.ReleasePair` | pair_warmer.go:131-144 | drops one reference; the last one of a draining pair removes it and re-elects |
| `PairWarmer.PairWarmer.RemovePair` | pair_warmer.go:147-160 | the pair is gone, the others keep their order, a removed primary is forgotten |
| `PairWarmer.PairWarmer.InvalidateChannel` | pair_warmer.go:163-189 | every open pair on the channel is draining, or gone when nobody holds it; the loop with in-place removal does exactly that |
| `PairWarmer.PairWarmer.PruneIdleDrainingPairs` | pair_warmer.go:436-450 | ranging over the old slice while removing equals the pass over the shifting backing array |
| `PairWarmer.PairWarmer.FindReadyMatch` | pair_warmer.go:594-615 | the head if it has the raced channels, else the first other Ready pair that has |
| `PairWarmer.PairWarmer.PromoteToHead` | pair_warmer.go:618-640 | the pair moves to the front and becomes primary, the others keep their order |
| `PairWarmer.PairWarmer.ReplaceHeadWithCandidate` | pair_warmer.go:643-675 | the candidate takes the head and a healthy old head becomes the second |
| `PairWarmer.PairWarmer.DeduplicatePairs` | pair_warmer.go:678-707 | of Ready pairs on the same channels only the first stays Ready |
| `PairWarmer.PairWarmer.HealthCheckSpares` | pair_warmer.go:711-741 | every spare that lost a channel has that channel invalidated, on the list as it was when the check began |
| `PairWarmer.PairWarmer.TrimExcessPairs` | pair_warmer.go:744-780 | the tail is drained down to the wanted number, stopping at a tail in use |
| `PairWarmer.PairWarmer.DiscardCandidatePair` | pair_warmer.go:407-418 | an idle candidate is removed and the primary elected again; one in use, listed or not, is sent draining without an election |
| `PairWarmer.PairWarmer.TryBuildPairs` | pair_warmer.go:518-549 | races are run until enough pairs are Ready |
| `PairWarmer.PairWarmer.PeriodicRefresh` | pair_warmer.go:793-895 | the five stages in place: if the race elects (u, d) and both channels stay available, it ends with a Ready primary on (u, d), distinct channels among Ready pairs, and at most PairCount of them exactly when trimming finds no Ready pair in use beyond the first PairCount + 1 |
| `PairRefresh.RefreshElectsTheWinner` | pair_warmer.go:793-895 | the same for every list, race outcome, set of open channels and result of the top-up races |
| `PairRefresh.DedupedDistinct` | pair_warmer.go:678-707 | after deduplication all Ready pairs have distinct channels |
| `PairRefresh.TrimmedReadies` | pair_warmer.go:744-780 | trimming keeps a prefix of the Ready pairs, never fewer than wanted, and gets down to the wanted number exactly when no Ready pair beyond that number and the next one is in use |
| `PairRefresh.DecideHeads` | pair_warmer.go:834-871 | whichever branch places the candidate, a Ready pair on the raced channels heads the list |
| `PairList.ShrinksMembers` | pair_warmer.go:163-189 | invalidating, deduplicating, trimming and pruning only drop idle pairs and send pairs draining: a pair in use survives |
| `PairList.PrunePassShrinks` | pair_warmer.go:436-450 | a prune pass removes only idle pairs and keeps the order |
| `PairList.PrunePassSkips` | pair_warmer.go:440-446 | of three idle draining pairs one pass leaves the middle one |
| `PairList.PrunePassCompleteIff` | pair_warmer.go:436-450 | a pass over any list leaves no idle draining pair exactly when no two of them stand side by side with another pair behind them |
| `PairList.PromoteElectsIff` | pair_warmer.go:618-640 | promoting keeps the primary elected exactly when the promoted pair is Ready or absent, or nobody is Ready |
| `PairList.ReplaceElectsIff` | pair_warmer.go:643-675 | replacing the head keeps the primary elected exactly when the candidate is Ready or absent, or nobody is Ready |
| `PairList.DiscardElectsIff` | pair_warmer.go:407-418 | discarding any candidate, listed or not, breaks the election exactly when it sends the serving primary draining while another pair is Ready |
| `PairList.SectionKeepsPrimary` | pair_warmer.go:163-211 | every locked section keeps the primary elected exactly outside the states named by those conditions |
| `PairList.PrimaryIsElected` | pair_warmer.go:335-341 | in every interleaving the primary is the first Ready pair, or no pair is Ready and it is nil or listed, exactly unless placing a candidate has just put a pair that cannot serve in front, or has sent the serving primary draining, while others could serve |
| `PairSections.InvalidateLeaves` | pair_warmer.go:163-189 | after a channel is lost no pair that uses it in either direction is Ready, those in use are draining, idle ones are gone, all others are unchanged and in order, and the first Ready one serves |
| `PairSections.HealthCheckLeaves` | pair_warmer.go:711-741 | a Ready spare stays exactly if both of its channels are open, a primary on open channels stays, and nobody becomes Ready |
| `PairSections.DeduplicateLeaves` | pair_warmer.go:678-707 | a Ready pair stays Ready exactly if it is the first on its channels; a duplicate stays only as long as it is in use |
| `PairSections.ReleaseLeaves` | pair_warmer.go:131-144 | a release takes one reference off, and the pair off the list exactly if that was the last one of a draining pair |
| `PairSections.TopUpAdds` | pair_warmer.go:518-549 | exactly the missing pairs are built, as far as races are won, idle, Ready and at the end of the list |
| `PairSections.PromoteLeaves` | pair_warmer.go:618-640 | one pair comes to the front and serves, the others keep their order |
| `PairSections.DiscardLeaves` | pair_warmer.go:407-418 | a discarded candidate is gone if idle and draining in its place if not, and no other pair is touched |
| `PairSections.DecideLeaves` | pair_warmer.go:594-675 | a raced candidate is dropped exactly if a Ready pair is on its channels already, and then which pair serves; otherwise it takes the head with a serving head as the second; no other pair is lost |
| `PairSections.RefreshLeaves` | pair_warmer.go:793-895 | a Ready pair that a refresh leaves was there or has been raced, on open channels unless it was built last or was the primary of the check; an idle draining one is one that pruning had left |
| `PairSections.AlignFills` | pair_warmer.go:843-895 | with channels that differ every missing pair is made up for |
| `PairSections.DrainingPairsAreInUse` | pair_warmer.go:131-189 | in every interleaving of locked sections each listed draining pair is in use |
| `PairRace.StatesOnlyAdvance` | pair_warmer.go:98-144 | in every run of atomic operations a pair never returns to Ready, and between two points without one of the two retreats the state only moves from Ready to Draining to Closed |
| `PairRace.RetreatsIff` | pair_warmer.go:163-174 | a step moves the state back exactly when InvalidateChannel stores Draining after a second load that saw Closed, or a closed candidate in use is discarded |
| `PairRace.SecondLoadSeesClosedIff` | pair_warmer.go:169-174 | the second load sees Closed exactly when a release has closed the pair since the first |
| `PairRace.InvalidateCanRetreat` | pair_warmer.go:163-189 | from any newly listed pair, a run in which InvalidateChannel moves it from Closed back to Draining |
| `PairRace.DiscardCanRetreat` | pair_warmer.go:407-418 | from any newly listed pair, a run in which discarding does |
| `PairRace.NothingIsStranded` | pair_warmer.go:163-189 | with no release in flight a listed draining pair is in use and a closed pair is off the list; the second check of an acquirer never fails |
| `PairRace.OnlyStaleReleasesTear` | pair_warmer.go:98-189 | a pair with references leaves the list only through a release that had reached zero while the pair was Ready |
| `PairRace.ReleaseTearsIff` | pair_warmer.go:131-144 | such a release, run to its end without interruption, removes a pair in use exactly when it finds the pair draining and acquired again |
| `PairRace.StepTearsIff` | pair_warmer.go:131-144 | in every interleaving, a step removes a pair in use exactly when it is a release, past its store of Closed, taking the lock while the pair is listed and has been acquired again |
| `PairRace.ReleaseCanTear` | pair_warmer.go:131-144 | from any newly listed pair, a run in which that happens |
| `PairRace.SplitDiscardStrandsIff` | pair_warmer.go:407-418 | taken apart into reading a positive `refs` and storing Draining, discarding can strand the pair, by some course of the releases in between, exactly when the pair was Ready |
| `PairRace.AcquireSucceedsIff` | pair_warmer.go:98-127 | an acquirer that is not interrupted gets a reference exactly if the pair is Ready, and leaves no trace otherwise |
| `PairRace.InvalidateDrains` | pair_warmer.go:163-189 | InvalidateChannel, not interrupted, sends a pair in use draining and removes an idle one |
| `PairRace.ReleasesRemove` | pair_warmer.go:131-144 | the releases under way take a listed pair without references, that has left Ready, off the list |
| `PairRace.UnlistedIff` | pair_warmer.go:131-189 | the steps that take a pair off the list, exactly |
| `Dialing.ClientPool.DialStream` | proxy_dialer.go:40-51 | dial, hot or not, with the failed-send fallback, as one change of table and pair list |
| `Dialing.ClientPool.BroadcastConnect` | pool.go:1008-1013 | a broadcast that no channel takes unregisters the connection |
| `Dialing.ClientPool.GiveUpPair` | pool.go:992-1005 | the reference is given back and the uplink invalidated |
| `Dialing.ClientPool.Unregister` | pool.go:1063-1135 | the entry goes, its pair is released unless the target is the prebind target; a second call changes nothing |
| `Dialing.ReferencesAreConserved` | pool.go:948-1014 | in every run a listed pair's references equal the connections that hold it, and a held pair is listed |
| `Dialing.SectionKeepsRefs` | pair_warmer.go:744-780 | every other section of the pair warmer keeps the references of every pair in use |
| `Dialing.UnregisterBalancesIff` | pool.go:1106-1121 | unregistering keeps the balance exactly unless a pair is held under the prebind target |
| `Dialing.DialingThePrebindTargetLeaks` | pool.go:1106-1111 | dialing the prebind target over a pair leaks its reference |
| `Dialing.DialRegistersIff` | pool.go:948-1014 | a dial leaves its connection in the table exactly if it went out over a Ready pair or in a broadcast that some channel took, with the dialed target, and the pair in the first case; no other connection changes |
| `Dialing.DialUsesPairs` | pool.go:948-1005 | a dial over a pair adds one reference to the first Ready pair; one that could not be sent gives it back, and no pair on that uplink stays Ready; a plain dial touches no pair |
| `Dialing.UnregisterForgets` | pool.go:1063-1135 | exactly the connection goes, and one reference of the pair it held |
| `Wire.DecodesIff` | protocol/protocol.go:170-193 | decoding accepts exactly the byte strings that start with an encoding of a frame that fits, and returns that frame |
| `Wire.RoundTripIff` | protocol/protocol.go:151-168 | a frame survives the wire exactly when its ID has at most 255 bytes, its meta less than 2^16 and its payload less than 2^32 |
| `Wire.FrameLayout` | protocol/protocol.go:151-168 | where every byte of any frame stands |
| `Wire.LongIdIsCut` | protocol/protocol.go:151-168 | a longer ID arrives as its first 255 bytes |
| `Wire.RecordLayout` | protocol/protocol.go:54-73 | the bytes of a notification record |
| `Wire.OneRecordArrives` | protocol/protocol.go:54-93 | a record arrives exactly if its key has 1 to 255 bytes, with its channels modulo 2^32 |
| `Wire.EncodeHotPairNotify` | protocol/protocol.go:54-73 | the loop computes the concatenated records with keys of 1 to 255 bytes |
| `Wire.DecodeHotPairNotify` | protocol/protocol.go:76-93 | the offset loop computes the specified list |
| `Wire.NotifyRoundTrip` | protocol/protocol.go:54-93 | decoding an encoding gives the records with a valid key, channels modulo 2^32; the same list exactly when all records fit |
| `Wire.DecodeAfterEncoding` | protocol/protocol.go:77-93 | decoding is a homomorphism after an encoding |
| `Wire.DecodesLongest` | protocol/protocol.go:77-93 | an encoding is at the front of a payload exactly when its records are a prefix of the decoded list |
| `Wire.CutKeepsWholeRecords` | protocol/protocol.go:76-93 | a truncated payload yields exactly the records wholly inside it |
| `Wire.SplitOfJoinIff` | protocol/protocol.go:104-123 | splitting undoes joining exactly on dot-free prebind keys and non-empty suffixes |
| `Wire.JoinOfSplitIff` | protocol/protocol.go:112-123 | an ID splits into key and suffix exactly when it is their join |
| `Batches.WrittenSays` | pool.go:740-785 | the one message of a batch says what its jobs say one by one |
| `Batches.BatchesMean` | pool.go:740-799 | however the queue is cut into batches, the messages carry the same bytes per connection in the same order across messages |
| `Batches.BatchesAreMaximal` | pool.go:740-774 | where a batch ends, the next message had not arrived, or is not data of the same connection without meta, or would take the payload over the limit |
| `WriteWorker.Merge` | pool.go:776-785 | the copied buffer is the concatenation of the parts |
| `WriteWorker.TryJoin` | pool.go:755-774 | a message joins exactly if it is TCP data of the same connection with empty meta and fits the limit |
| `WriteWorker.Collect` | pool.go:740-774 | the aggregation loop: which jobs join, why it stops, and that each job taken is released once |
| `WriteWorker.Loop` | pool.go:649-799 | for any codec: batches of adjacent messages, beyond the limit only when the first payload alone is, and each job that leaves the queue released exactly once on every path including failure and shutdown; what the deferred drain no longer finds stays queued |
| `WriteWorker.Work` | pool.go:670-799 | with the frame codec: what the other end decodes means what the jobs mean, all of it or, after a failure, a prefix |
| `WriteWorker.TcpDataIff` | pool.go:740-774 | a message holds TCP data exactly if it is binary and a TCP data frame |
| `QueueBytes.BytesAreConserved` | pool.go:616-646 | in every interleaving of loads and swaps the counter is the size of all queued jobs, abandoned queues included, plus everything in hand; it stays within the limit and the guard against negative counts never acts |
| `QueueBytes.IdleMeansZero` | pool.go:841-874 | with nothing queued and nothing in hand the counter is zero |
| `QueueBytes.SwapCountsIff` | pool.go:616-646 | a swap counts its size exactly if nobody has changed the count since the load |
| `QueueBytes.ReserveSucceedsIff` | pool.go:616-629 | an uninterrupted sender gets its bytes exactly if they still fit under the limit, and a refused one has changed nothing |
| `QueueBytes.ReleaseGivesBack` | pool.go:632-646 | an uninterrupted release gives back exactly what was held |
| `QueueBytes.JobsLeaveInOrder` | pool.go:841-874 | jobs leave a session queue in the order in which they entered it, and the count stands meanwhile |
| `Backpressure.Written` | connection.go:167-207 | a write terminates because a nested announcement only raises the level, and never takes bytes off |
| `Backpressure.ServerPool.AsyncWrite` | connection.go:167-207 | the new pool state and the queue-full result |
| `Backpressure.ServerPool.UpdateBackpressureState` | server_pool.go:606-639 | the upward transitions with the cooldown |
| `Backpressure.ServerPool.RemoveQueueBytes` | server_pool.go:642-690 | the downward transitions |
| `Backpressure.ServerPool.BroadcastBackpressure` | server_pool.go:693-697 | the level is stored, then announced on every channel through the queues it measures |
| `Backpressure.ServerPool.TakeTask` | connection.go:142-150 | one turn of the write loop |
| `Backpressure.BytesAreCounted` | server_pool.go:590-647 | in every run the counter is the sum of all queued sizes and the clamp never acts |
| `Backpressure.LevelsFollowTheQueues` | server_pool.go:606-690 | in every run: above 95% the level is Pause, in Pause at least 90% is queued, in SlowDown 30% to 95%, and an elevated level has bytes queued when the limit is at least 4 |
| `Backpressure.ElevatedOverEmptyIff` | server_pool.go:642-690 | an elevated level over empty queues is reachable exactly for limits 1 to 3 |
| `Backpressure.NoticesAreAmortised` | server_pool.go:606-690 | in every run: notices times (limit*95/100 - limit*9/10) is at most three times the bytes enqueued |
| `Backpressure.WriteAnnouncesPerLevel` | server_pool.go:606-639 | one write announces at most once for each level it raises |
| `Backpressure.AnnouncementIsHeard` | server_pool.go:693-697 | an announcement that does not raise the level again puts exactly one notice on every open channel with room |
| `Backpressure.NoticeIsHeardIff` | server_pool.go:373-397 | a slow-down notice, or a recovery notice during the cooldown, is followed up on an open channel with room for two notices, so that it ends with the current level as newest notice, exactly when the notices put on the channels before it fit under the pause threshold |
| `Backpressure.RecoveryCanBeOvertaken` | server_pool.go:693-697 | a recovery notice outside the cooldown that ends in Pause while a channel's newest notice says Normal |
| `Backpressure.WriteRaisesIff` | server_pool.go:606-639 | a queued write raises the level exactly when it takes the queues above 95% of the limit outside Pause, or above 80% in Normal without a cooldown, which it then starts |
| `Backpressure.RemovalLowersIff` | server_pool.go:642-690 | a removal lowers the level exactly below 90% in Pause, to Normal below 30%, or below 70% in SlowDown, and what it announces stands unless its own notices take the queues above the next threshold |
| `Backpressure.RecoveryCanRelapse` | server_pool.go:642-697 | a fall to Normal whose own notice raises the level again |
| `Backpressure.WriteIsLast` | connection.go:167-207 | a task goes behind everything queued on an open channel with room, only notices come behind it, and a full or closed channel takes nothing |
| `Backpressure.TakeIsFirst` | connection.go:142-150 | a write loop takes the oldest task and the rest keeps its order |
| `HotPairTable.HotPairTable.HandleNotify` | hotpair_table.go:38-78 | the table agrees with the log extended by the records decoded from the payload |
| `HotPairTable.HotPairTable.Lookup` | hotpair_table.go:81-101 | the answer of the unswept log filtered by age; nothing for an empty client or key |
| `HotPairTable.HotPairTable.Newest` | hotpair_table.go:105-131 | some live entry of maximal time, or nothing exactly when the log has no live entry |
| `HotPairTable.HotPairTable.InvalidateChannel` | hotpair_table.go:134-150 | the log extended by the loss of the channel |
| `HotPairTable.HotPairTable.InvalidateClient` | hotpair_table.go:153-160 | the log extended by the loss of the client |
| `HotPairTable.SweepIsInvisible` | hotpair_table.go:81-102 | a table that agrees with the log answers like the log, whatever has been swept |
| `HotPairTable.OneMoreNote` | hotpair_table.go:60-66 | the last usable record of a key wins |
| `HotPairTable.NotifiedIsAnswered` | hotpair_table.go:38-102 | the last usable record of a key is answered for ten minutes with its two channels, to its client alone |
| `HotPairTable.AnswerStays` | hotpair_table.go:134-160 | an answer not announced anew goes exactly when its client or a channel of one of its numbers goes |
| `TargetBuffer.ServerConnState.BufferData` | handler.go:174-196 | buffered, given up at the size limit, or passed on to a target that has appeared meanwhile |
| `TargetBuffer.ServerConnState.PublishTarget` | handler.go:119-131 | publishes the target and hands over the buffer, unless closed |
| `TargetBuffer.ServerConnState.Close` | server_pool.go:508-520 | closed once, and no longer connected |
| `TargetBuffer.PayloadsAreWrittenOnce` | handler.go:97-150 | no payload is written twice, and a surviving connection at rest has written each accepted payload exactly once |
| `TargetBuffer.BufferedKeepTheirOrder` | handler.go:153-202 | buffered payloads keep their order, so do later ones, the buffer stays within 1 MiB, and the whole is in order exactly when no direct write overtook the flush |
| `TargetBuffer.DirectWriteKeepsOrderIff` | handler.go:125-146 | a direct write keeps the order exactly when the flush has nothing left |
| `TargetBuffer.DirectWriteCanOvertake` | handler.go:125-146 | a run in which the second payload reaches the target first |
| `TargetBuffer.ClosedForGood` | server_pool.go:498-520 | a closed connection stays closed, unconnected and unwritten in every continuation |
| `TargetBuffer.GivenUpIff` | handler.go:174-196 | a payload is refused, and the connection with it, exactly if there is no target and it would take the buffer over 1 MiB |
| `TargetBuffer.PublishHandsOver` | handler.go:119-131 | publishing takes the whole buffer along, unless the connection is closed |
| `TargetBuffer.FlushCompletes` | handler.go:137-146 | left alone, a flush writes the whole buffer in order |
| `TargetBuffer.UnregisteringCloses` | server_pool.go:498-520 | wherever it comes in a run, unregistering ends in a closed connection to which nothing more is written |
| `ServerTable.ServerPool.CleanupChannel` | server_pool.go:414-475 | the loops remove exactly the client's connections and reverse connections on the channel, and with its last channel the client's prebind window, listeners and hot entries |
| `ServerTable.ServerPool.HandleTCPConnect` | handler.go:31-71 | first arrival fixes uplink and owner; a live hot entry under the key in the connection ID, with the same uplink, the downlink |
| `ServerTable.ServerPool.HandleSelectDownlink` | handler.go:205-257 | a downlink is taken once, from the uplink, among the sender's live channels |
| `ServerTable.ConnectionsUseLiveChannels` | handler.go:205-257 | in every run each forward connection of a named client uses only live channels of that client |
| `ServerTable.NothingRefersToAClosedChannel` | server_pool.go:414-475 | right after the close no connection or reverse connection of the client uses the channel, and no answer of the hot pair table, whatever the time asked for |
| `ServerTable.ClosedChannelStaysForgotten` | server_pool.go:414-475 | in every run that holds until the client opens the channel again, announces it for a reverse connection or notifies a hot pair on it |
| `ServerTable.OthersAreUntouched` | server_pool.go:414-461 | exactly those entries are gone and all others are unchanged, prebind windows and listeners included |
| `ServerTable.OtherHotEntrySurvivesIff` | server_pool.go:463-471 | another client's hot entry survives exactly when the closing client leaves entirely or the entry does not name that channel number |
| `ServerTableRecords.RecordsFollowTheProtocol` | handler.go:31-257 | in every run the record of each connection ID is what the forward protocol's server makes of the same messages |
| `ServerTableRecords.OwnerIsFirst` | handler.go:31-71 | a record's owner is the client whose live channel carried the first connect message, and never changes |
| `ServerTableRecords.ChoiceIsStored` | handler.go:230-257 | a choice from the uplink stores exactly the chosen live channel and changes nothing else |
| `ServerTableRecords.DialStartsAsReverse` | reverse_server.go:78-152 | a reverse dial starts as the protocol's preset dial with a live entry on open channels, and as a classic one otherwise |
| `ServerTableRecords.AnnouncementStepsAsReverse` | reverse_server.go:199-226 | an announcement steps its owner's record as the dialing server, and no other record |

## Left out

- Sockets, TLS, ECH, DNS, certificates and the WebSocket library: a channel is a FIFO queue, and what a send, dial or write does is an input of the step.
- UDP: it repeats the TCP selection with lossy semantics and adds no harder property.
- Relay selection (relay.go): floating-point scores, wall-clock decay and a random pick around simple counting.
- Logging, domain events, statistics and the racer diagnostics: no effect on protocol state.
- waitForBackpressure: whether it returns in time is not decided by the code that is modelled here.
- Shutdown, reconnecting, retry timing and configuration: easy, or purely about time. Sending to a queue that a shutdown has closed is not modelled.
- Pair objects: a pair is found by its prebind key instead of by pointer, so two pointers to one pair are not represented; slot numbers are left out.
- PairWarmer.PairWarmer.PeriodicRefresh: takes the five stages as one step, because the promise about the winner needs the channels to stay available throughout; the primary invariant is proved for every interleaving of the sections.
- `invalidatePair` and the setters for tests: no production code calls them.
- Forward.EndsAgree: is about one server record and a hot table entry that names the client's own pair, which is what a client announces; any number of records is the subject of `ForwardRecords.EndsAgreeThroughoutIff`.
- Forward.StreamsAreKept: is about one server record; `ForwardRecords.RecordsTakePrefixes` and `ForwardRecords.ClientTakesPrefix` say what holds for any number.
- Reverse.EndsAgree: is about one client record; `ReverseRecords.EndsAgreeThroughoutIff` is about any number.
- Reverse.StreamsAreKept: is about one client record; `ReverseRecords.RecordsKeepStreams` and `ReverseRecords.StreamsCanBreakIff` are about any number.
- Backpressure.NoticeIsHeardIff: a recovery notice outside the cooldown can first be overtaken by a slow-down announcement of its own, so that the outcome depends on the room left in every queue; `Backpressure.RecoveryCanBeOvertaken` shows the effect.
- ServerTable.ConnectionsUseLiveChannels: handling a message and closing a channel are single steps; a close that overlaps a handler, or a reconnect under the same number, is not represented.
- WriteWorker.Work: promises meaning for an aggregation limit below 2^32 bytes, since the payload length field has 32 bits (`Wire.RoundTripIff` says what happens beyond).
- Backpressure: integers are unbounded, so an overflow of limit*95 for limits near 2^63 is not represented, nor is the separate loading and storing of the counters by concurrent calls, nor the re-entrant read lock of a nested broadcast.
- ServerTable.ServerPool.CleanupChannel: the slice of channels that broadcasts range over is not kept beside the map; both hold the same channels.
- The channel reset notice after five full queues within a second: it depends on time and changes no queue.
- Reverse listeners: parsing and starting foreign servers, with a simple limit on their number.
