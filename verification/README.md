# Verified model of the storm test bed and the digital twin

A Dafny 4.11 model of the repository's protocol and data-path cores, with machine-checked
properties. `dafny verify dfyconfig.toml` checks everything.

- **PRB admission** (`RfModel`, `Signalling`, `Catalog`, `Du`, `DuServer`, `DuRuns`,
  `LadderTrace`): the message names and how texts are classified (`Catalog`), the DU's per-cell
  PRB pools, its message handlers as functions (`Du`) and as objects updated in place that are
  proved to compute them (`DuServer`), runs of links and messages (`DuRuns`), and the single-UE
  ladder recorder.
- **F1 and the whole system** (`F1Link`, `Network`, `NetworkShape`, `NetworkReplies`,
  `NetworkSafety`, `NetworkDrains`, `NetworkRest`, `NetworkLeaks`, `LeakRuns`, `NetworkLinks`,
  `NetworkBooks`, `UeFlow`): one RU's multiplexed F1 link with its futures (`F1Link` as
  functions, `F1Client` as the object), and a step relation of all UE sockets, RU processes,
  links and the DU that interleaves at the await points (`Network`). What every move keeps
  whatever the UEs send (`NetworkShape`) carries reply correlation and progress
  (`NetworkReplies`); with disciplined UEs it carries leak freedom (`NetworkSafety`) and two
  ways back to rest: by releases while F1 is up (`NetworkRest`), and by failures when it is
  not (`NetworkDrains`). `NetworkLinks` follows the reader task through reconnects,
  `NetworkBooks` what the DU keeps of a session. What happens without the discipline is in
  `NetworkLeaks` and, run by run, in `LeakRuns`. `UeFlow` is one leg of the UE simulator.
- **IQ hub** (`HubCore`, `IqHub`): per-UE channels and superposition, proved to be one formula
  over whole streams; the lockstep relay with its slot life cycle.
- **Trace stitching and flow ordering** (`Identity`, `Stitch`, `StitchLinks`, `Slices`,
  `AttachFlow`, `AttachKpis`, `TraceAlign`): partitioning, merging, sorting, phase latencies and
  the pairing of live events with reference records.
- **Digital twin** (`StateMachine`, `Generator`, `Hawkes`): masked S1AP generation against its
  validator, and the Hawkes recursion and sampler.
- **Kernels** (`Templates`, `Protocol`, `RfProfiles`, `SlotPool`, `Arrivals`, `LayerB`): message
  templates and the fidelity check, framing, largest-remainder quotas, the pool of UE
  containers, arrival patterns, batched registration.

`Collections` holds what they share: a stable sort with its laws, dictionaries of lists,
decimal numerals.

Where the code and what one might expect of it differ, the model follows the code and a lemma
says exactly when the expectation holds:

- A refused handover has already dropped the source session, although the UE simulator goes on
  as if it stayed there (`poc_StressTest/ue/ue_sim.py:640-646`): `Du.HandoverKeepsServiceIff`.
- A cell with an empty id is not remembered by its link and survives it
  (`poc_StressTest/du/du_server.py:288-290`): `DuRuns.GrantSurvivesItsLinkIff`.
- Two steps with one uplink name would be taken for each other; with the LTE names none are:
  `Catalog.RoundTripIff`.
- The final uplink closes a socket without the synthetic release, so leak freedom needs UEs
  that send it only after an answered release request: `NetworkLeaks.FinalUplinkLeaksIff`, with
  the run that leaks in `LeakRuns.FinalUplinkLeaks`.
- The synthetic release names only the last UE and cell of a socket, so leak freedom needs one
  UE and one cell per socket: `LeakRuns.SocketLeaksIff`, `LeakRuns.MixedSocketLeaksIff`.
- A task whose transaction has failed gives up its RU's link when it goes on, and one whose
  answer was lost with a link waits for a failure, so not every state comes to rest by releases:
  `NetworkRest.RestsGentlyIff`.
- An RU that reconnects while its reader task still waits on the lost connection sends, and is
  answered, but hears nothing: `NetworkLinks.LostReaderStarvesCallers`.
- A release the eNodeB asks for is refused by the validator, whose RELEASING state does not
  expect the command: `StateMachine.CommandAfterRequestIsRefused`.
- A random value that reads like a procedure id merges orphans that have nothing to do with each
  other: `Stitch.OwnIdsMeetIff`.
- A random value seen first without an IMSI keeps sessions of one UE apart:
  `StitchLinks.RandomJoinsImsiIff`.
- An unreadable timestamp counts as "start not set": `Stitch.StartIsEarliestIff`.
- Phase durations need not add up to the attach time: `AttachKpis.PhasesAddUpIff`.
- The launched Layer-B IMSI loses the leading zeros of the provisioned one:
  `LayerB.LaunchTextIsProvisionedIff`, `LayerB.ConfiguredBaseLosesZeros`.

What stands for the outside world: `Network.Move` for the scheduler and every failure;
`IqHub.Tick` for what the hub's sockets do in a round; `draw`, `draws` and `uniform` arguments
for random numbers and the neural network; `exp` and `log` arguments for the math library;
`order` for what argsort makes of ties. Reals stand for floats.

The assumption leak freedom makes on what comes in over a UE socket is `Network.Disciplined`:
one non-empty UE id and one cell per socket, and the final uplink only after the release request
was answered. Every leg of the UE simulator keeps to it (`UeFlow.NewLegIsDisciplined`). Reply
correlation and progress make no such assumption. Links and sockets may fail at any moment, an
RU may crash with all its tasks and be started again as a new process whose transactions count
from 1, and messages on a link may be read in any order, which includes the order a connection
keeps.

## Model

| member | source | states |
|---|---|---|
| NetworkSafety.NoGrantForNobody | poc_StressTest/ru/ru_server.py:229-277 | Leak freedom: in every reachable state of UEs, RUs and DU, with any interleaving, any lost sockets and links and any RU crashes, each grant is backed by an open socket for that UE and cell, by a release on its way over a live link, or by its own link, the one its setup came by, which its RU has given up and whose loss at the DU will empty the cell |
| NetworkSafety.QuietMeansEmpty | poc_StressTest/du/du_server.py:281-310 | Once all sockets are closed and all live links are read empty, every cell has no session, used_prbs 0 and as many releases as admissions |
| NetworkRest.RestsGentlyIff | poc_StressTest/ru/ru_server.py:262-277 | With F1 up wherever a socket is open: the UEs' going, the tasks' synthetic releases and the DU's answers alone, without any failure or loss, bring the system to rest with every cell empty and every link still up, exactly when no held transaction has failed and every awaited answer can still come |
| NetworkDrains.AlwaysDrains | poc_StressTest/du/du_server.py:297-310 | The fallback for broken links: from every reachable state, by failing sends and the loss of every link at the DU, some run comes to rest with every cell empty |
| NetworkSafety.MoveKeepsInv | poc_StressTest/ru/ru_server.py:96-277 | Each of the fifteen atomic moves, among them an RU crash with a restart, keeps the whole invariant of DU, sockets, transactions, wire, futures and grants, for disciplined UEs |
| NetworkShape.MoveKeepsShape | poc_StressTest/ru/ru_server.py:96-277 | Whatever the UEs send, each move keeps what holds between sockets, transactions, wire, futures and history |
| NetworkSafety.RunKeepsInv | poc_StressTest/ru/ru_server.py:96-277 | The same over runs of any length |
| NetworkLeaks.FinalUplinkLeaksIff | poc_StressTest/ru/ru_server.py:259-262 | Without the release order, whatever the UEs send and however many sockets and cells they use: on every run in which the DU loses no link, with no link given up and no other socket open for this UE and cell, the answered final uplink leaks the grant exactly when the exchanges the DU answered for the UE, on all its sockets and in the order it read them, say there is one: its last setup was accepted there, and since then it had no release and no refused measurement there |
| NetworkLeaks.BooksFollowLog | poc_StressTest/du/du_server.py:205-219 | On any run at all, whatever is sent and whatever fails, the DU holds a grant only if the exchanges it answered say so, and exactly then if it lost no link |
| NetworkLeaks.SoleSocketLeaksIff | poc_StressTest/ru/ru_server.py:259-262 | For a UE with one socket the same in terms of what that socket itself sent and had answered |
| NetworkLeaks.LeakWasTold | poc_StressTest/ru/ru_server.py:259-262 | For such a UE, links lost or not, a grant that outlives the final uplink is one the socket was told it has |
| LeakRuns.SocketLeaksIff | poc_StressTest/ru/ru_server.py:259-277 | For any uplinks a socket carries, to any UEs and cells and in any order: once it has ended, by a final uplink or because its UE vanished, exactly those grants are left for nobody that the answers say are held, but for the one pair the synthetic release names |
| LeakRuns.FinalUplinkLeaks | poc_StressTest/ru/ru_server.py:259-277 | For any system, site and admissible setup, the run that leaks: attach, setup accepted, final uplink answered; nothing is under way, F1 is up, and the grant stays with nobody to give it back |
| LeakRuns.AFinalUplinkLeaks | poc_StressTest/ru/ru_server.py:259-277 | One such run with all its numbers |
| LeakRuns.MixedSocketLeaksIff | poc_StressTest/ru/ru_server.py:265-277 | One UE and one cell per socket: after an accepted setup and one more message a vanishing socket leaves a grant for nobody exactly when that message was for another UE, or named another cell without moving the UE there |
| NetworkReplies.ResumesWithOwnReply | poc_StressTest/ru/ru_server.py:128-177 | Correlation, whatever the UEs send: the reply a task resumes with is the one on record for the very transaction the task issued, for that request, and what the DU's handlers said to it in the state they read it in |
| NetworkReplies.AnsweredOnce | poc_StressTest/ru/ru_server.py:161-177 | The answer on record for a transaction is never replaced in any run, not even by a restarted RU that counts from 1 again |
| NetworkReplies.ResolvedOnce | poc_StressTest/ru/ru_server.py:108-141 | A future is resolved at most once and no transaction is forgotten, whatever happens next |
| NetworkReplies.NoCallerStranded | poc_StressTest/ru/ru_server.py:161-177 | An awaiting task has a future that is resolved, or registered exactly where a link failure will find it |
| NetworkReplies.FailureWakesEveryCaller | poc_StressTest/ru/ru_server.py:108-141 | When the reader task fails, every task awaiting a reply on that RU can go on |
| NetworkLinks.ReaderStays | poc_StressTest/ru/ru_server.py:114-141 | In every move of the system but its own a reader task that waits stays on its connection; one is started only by a new connection, on that one; after a reply it turns to the connection current then; when it fails or the RU crashes there is none |
| NetworkLinks.ConnectionStays | poc_StressTest/ru/ru_server.py:114-177 | Callers and reader use the last connection made, until a caller or the reader finds it broken; then there is none until the next |
| NetworkLinks.QueuedGoesOut | poc_StressTest/ru/ru_server.py:161-168 | A queued request goes out on the connection current when its turn comes; with none by then nothing is sent and the task closes or turns to its synthetic release |
| NetworkLinks.CrashEndsTheProcess | poc_StressTest/ru/ru_server.py:96-112 | A crash closes all sockets of the RU process and leaves no future of it waiting; an idle process takes its place at the site, and nothing else differs |
| NetworkLinks.LostReaderStarvesCallers | poc_StressTest/ru/ru_server.py:114-141 | After a reconnect behind the reader's back: on any run, as long as the reader has not found its lost connection broken and the RU is not started again, none of the RU's callers gets an answer, whatever is sent and answered on the new connection |
| NetworkLinks.IdsAreCounted | poc_StressTest/ru/ru_server.py:104-166 | On any run each RU process has used exactly the transaction ids from 1 up to its next one |
| F1Link.OperationsKeepF1Ok | poc_StressTest/ru/ru_server.py:99-177 | Every F1 operation keeps: registered exactly while unresolved, and transaction ids never reused |
| F1Link.OperationsKeepResolved | poc_StressTest/ru/ru_server.py:108-141 | No F1 operation touches a resolved future |
| F1Link.AbandonStrandsNoOne | poc_StressTest/ru/ru_server.py:108-112 | A link failure leaves no future waiting |
| F1Client.Link.FailPending | poc_StressTest/ru/ru_server.py:108-112 | The loop over pending breaks exactly the unresolved registered futures and empties the registry |
| F1Client.Link.Abandon | poc_StressTest/ru/ru_server.py:171-177 | The except branch of request, on the fields |
| F1Client.Link.ReaderFails | poc_StressTest/ru/ru_server.py:135-141 | The end of the reader task, on the fields |
| F1Client.Link.Issue | poc_StressTest/ru/ru_server.py:163-166 | A fresh id, registered before anything is sent |
| F1Client.Link.TakeReply | poc_StressTest/ru/ru_server.py:131-134 | A reply resolves its own future if that still waits, and no other |
| F1Client.Link.Connected | poc_StressTest/ru/ru_server.py:114-121 | A connection is stored; a reader task that waits on an older one keeps waiting there, and one starts only if none runs |
| UeFlow.NewLegIsDisciplined | poc_StressTest/ue/ue_sim.py:553-695 | Every leg the UE simulator can run on a site's own cell, with any answers, wherever the UE moves, with a release at any moment, repeated after a cancel or after a refused measurement, keeps to the discipline that leak freedom relies on |
| UeFlow.LegGoesOn | poc_StressTest/common/signaling/procedures.py:62-86 | After each answered exchange the RU socket agrees with the leg on UE, cell and progress |
| UeFlow.ServiceFollowsAttach | poc_StressTest/ue/ue_sim.py:553-695 | A UE measures and sends data only after its whole attach flow, in order and with the setup accepted, and only until a release request or a refused measurement |
| UeFlow.ReleaseEndsTheLeg | poc_StressTest/ue/ue_sim.py:553-695 | The final uplink comes right after a release request and nothing comes after it |
| UeFlow.ForeignCellIsReplaced | poc_StressTest/ru/ru_server.py:229-250 | A UE that names a foreign cell is served on the strongest sector for where it is, or on its last |
| UeFlow.LostAnswerIsReleased | poc_StressTest/ru/ru_server.py:256-277 | An answer that cannot be delivered ends the socket like a vanished UE: a release on its last cell, then it closes |
| Du.DispatchKeepsOk | poc_StressTest/du/du_server.py:92-219 | Conservation: after any message used_prbs is the sum of the grants and within the pool, grants are at least 1 and at most 2 for voip, admitted equals released plus sessions |
| Du.DispatchHolders | poc_StressTest/du/du_server.py:118-219 | Only the sender's own sessions can change, only an accepted setup adds one, a release request always removes it |
| Du.DispatchKeepsOneCell | poc_StressTest/du/du_server.py:102-146 | No message lets a UE hold PRBs on two cells |
| Du.SetupIsExact | poc_StressTest/du/du_server.py:118-146 | Admission accepts exactly when there is coverage and room, with the UE's own session counted as free; the UE then holds the asked grant there and nothing elsewhere |
| Du.MeasurementIsExact | poc_StressTest/du/du_server.py:148-178 | The new grant is the required one or all the room there is, never less than before when more is needed; congested says which |
| Du.DispatchBooks | poc_StressTest/du/du_server.py:118-189 | After any message a session is what the exchange that last granted it something said: PRBs and congestion as told, throughput at the radio reported, the demand of the setup; no other exchange touches it |
| Du.SameRadioSameGrant | poc_StressTest/du/du_server.py:139-178 | A report at the radio of the accepted setup confirms its grant, uncongested, and changes no pool |
| Du.DataIsToldTheTerms | poc_StressTest/du/du_server.py:180-189 | A data message is answered with PRBs times throughput and the demand booked, or as unknown, and changes no session |
| Du.ReplyFollowsFlow | poc_StressTest/du/du_server.py:118-219 | Every reply names its request's UE, cell and step; it is the flow's downlink for the step, or the reject exactly when something is refused, and carries a grant, a throughput or nothing as the step has it |
| NetworkBooks.SessionsFollowTerms | poc_StressTest/du/du_server.py:118-189 | On every run, whatever the UEs send and whatever fails, a session holds the demand of the UE's last accepted setup there, the throughput at the radio last reported with success, and the PRBs and congestion last told |
| NetworkBooks.DataAnswersTheTerms | poc_StressTest/du/du_server.py:180-189 | So on every run data is answered with the demand of that setup and the PRBs last granted times the throughput at that radio |
| Du.AcceptedHandoverReleasesOnce | poc_StressTest/ue/ue_sim.py:631-653 | Make-before-break: after an accepted target setup the release flow on the source changes no cell |
| Du.HandoverKeepsServiceIff | poc_StressTest/ue/ue_sim.py:640-646 | A handover attempt leaves the UE a session exactly when the target has coverage and room; the source session is gone either way and the next measurement there is answered unknown-ue |
| Du.RefusedHandoverStrandsUe | poc_StressTest/du/du_server.py:124-137 | A concrete refused handover after which the UE holds nothing anywhere |
| Du.ReleaseOfNothing | poc_StressTest/du/du_server.py:191-203 | Releasing what is not held changes no pool |
| RfModel.PrbsForTraffic | poc_StressTest/common/rf_model.py:106-145 | The contract of the grant computation: absent or at least 1, and at most 2 for voip |
| RfModel.DataGrantIsLeast | poc_StressTest/common/rf_model.py:106-121 | A data grant carries the demand and no smaller positive grant would |
| RfModel.PerPrbCarries | poc_StressTest/common/rf_model.py:90-98 | What one block carries: three quarters of its twelve subcarriers |
| RfModel.VoiceGrantIs | poc_StressTest/common/rf_model.py:122-145 | Two blocks below 5 dB, else one |
| Catalog.RoundTripIff | poc_StressTest/common/signaling/catalog.py:50-52 | For any table of message names: every uplink built for a step is classified back to it, whatever its sidecar says, exactly when no two steps share an uplink name |
| Catalog.LteNamesDiffer | poc_StressTest/common/signaling/lte.py:62-84 | No two logical names, up or down, have one real name |
| Signalling.DownlinksDiffer | poc_StressTest/common/signaling/procedures.py:74-88 | No two steps are answered by the same downlink, and none by the reject |
| Catalog.TextsAreNames | poc_StressTest/common/signaling/catalog.py:102-112 | With the LTE names any text is classified as the name it stands for: an uplink's by itself, a downlink's or an unknown one by the sidecar; the final uplink is told by its text alone |
| Catalog.TextsHaveOneName | poc_StressTest/common/signaling/lte.py:62-84 | Every text stands for exactly one name |
| Catalog.IndexUplinks | poc_StressTest/common/signaling/catalog.py:50-52 | The loop over the steps builds the specified index |
| DuRuns.EveryRunIsOk | poc_StressTest/du/du_server.py:281-310 | Over every run of link-ups, messages and link losses: conservation, one cell per UE, and every named cell in use belongs to a live link |
| DuRuns.StepKeepsServerOk | poc_StressTest/du/du_server.py:281-310 | One step of such a run |
| DuRuns.LossIsExact | poc_StressTest/du/du_server.py:298-307 | Losing a link empties all of its cells and changes no other |
| DuRuns.NoLinksNothingHeld | poc_StressTest/du/du_server.py:281-310 | With no F1 link up no named cell holds anything |
| DuRuns.GrantSurvivesItsLinkIff | poc_StressTest/du/du_server.py:288-290 | A grant outlives the loss of the only link that carried it exactly when its cell id is empty, which conn_cells does not remember |
| DuRuns.UniqueEqualsConnected | poc_StressTest/du/du_server.py:314-332 | unique_connected_ues equals the sum of connected_ues |
| DuServer.DU.constructor | poc_StressTest/du/du_server.py:73-75 | No cells, nothing held |
| DuServer.DU.GetCell | poc_StressTest/du/du_server.py:86-90 | The cell, brought up empty when first seen; no other changes |
| DuServer.DU.ReleaseUe | poc_StressTest/du/du_server.py:92-100 | The fields after a release are the specified drop |
| DuServer.DU.ReleaseUeOtherCells | poc_StressTest/du/du_server.py:102-106 | The loop drops the UE on every other cell and leaves the kept one alone |
| DuServer.DU.HandleSetup | poc_StressTest/du/du_server.py:118-146 | The object after the call and the reply are those of the specified handler |
| DuServer.DU.HandleMeasurement | poc_StressTest/du/du_server.py:148-178 | Likewise for a measurement |
| DuServer.DU.HandleData | poc_StressTest/du/du_server.py:180-189 | Likewise for user data: no pool changes |
| DuServer.DU.HandleRelease | poc_StressTest/du/du_server.py:191-196 | Likewise for a release |
| DuServer.DU.Dispatch | poc_StressTest/du/du_server.py:205-219 | Likewise for any message |
| DuServer.DU.LoseLink | poc_StressTest/du/du_server.py:298-310 | The two loops empty exactly the link's cells; freed is the PRBs they held |
| DuServer.DU.BuildSnapshot | poc_StressTest/du/du_server.py:314-332 | The loop counts connected sessions and distinct UEs over all cells |
| LadderTrace.EveryLadderIsSound | poc_StressTest/du/du_server.py:223-295 | With resets at any moment the recorded ladder is one UE's, starts with its rrc_setup uplink, alternates up and down with equal steps in each pair and stays within the limit; complete means it ends with the release_complete downlink |
| LadderTrace.CompleteIsFrozen | poc_StressTest/du/du_server.py:232-239 | A complete ladder changes only after a reset |
| LadderTrace.TurnRecords | poc_StressTest/du/du_server.py:244-277 | What an undisturbed turn records: both messages of the traced UE, none of another; a rejection unlocks |
| LadderTrace.TurnKeepsSettled | poc_StressTest/du/du_server.py:286-295 | One request and reply keep the ladder settled |
| LadderTrace.Recorder.TraceRecord | poc_StressTest/du/du_server.py:227-277 | The fields after a record are the specified ones |
| LadderTrace.Recorder.RequestReset | poc_StressTest/du/du_server.py:223-225 | Only the reset flag is set |
| HubCore.Mixer.Relay | srsTwin/integration/hub/hub_core.py:160-212 | The hub is a stream filter: for any division into ticks the concatenated uplink is one position-wise sum over slots of gain, phase(n) and x[n - delay], zeros before the start |
| HubCore.Mixer.RelayRounds | srsTwin/integration/hub/hub_core.py:160-212 | The same with slots that come and go and blocks of any lengths: each round's uplink is the sum, at each position, of the slots' parts, each a formula over all its slot has ever sent; a slot that was away goes on where its stream stopped |
| HubCore.Mixer.SumUl | srsTwin/integration/hub/hub_core.py:187-212 | One tick: every block through its channel, padded superposition; each channel has heard exactly its block more |
| HubCore.Mixer.ApplyUl | srsTwin/integration/hub/hub_core.py:160-171 | A registered slot is filtered with its stream's history, another passes unchanged |
| HubCore.Mixer.constructor | srsTwin/integration/hub/hub_core.py:133-141 | configure registers exactly the channels that are not identities; of what the program asks for only fading is absent, since the uplinks here are unfaded |
| HubCore.Channel.Uplink | srsTwin/integration/hub/hub_core.py:114-119 | A block's output is the filter formula over everything heard so far |
| HubCore.Channel.ApplyDelay | srsTwin/integration/hub/hub_core.py:104-112 | The delay line passes the samples on, none lost or changed |
| HubCore.Channel.ApplyCfo | srsTwin/integration/hub/hub_core.py:96-102 | The phase ramp goes on where the last block stopped |
| HubCore.SuperposedIsExact | srsTwin/integration/hub/hub_core.py:174-212 | The sum is as long as the longest block or the fill and holds every sample: nothing is ever truncated |
| HubCore.TickIsMix | srsTwin/integration/hub/hub_core.py:160-212 | One tick of equal blocks is the stream formula on its stretch |
| HubCore.IdentityPasses | srsTwin/integration/hub/hub_core.py:69-73 | A channel configure leaves out would have changed nothing |
| HubCore.ImpulseResponse | srsTwin/integration/hub/hub_core.py:96-119 | One unit sample of a silent stream comes out once, after the delay, with the gain, turned by the phase of then |
| HubCore.ChannelIsLinear | srsTwin/integration/hub/hub_core.py:96-119 | A channel treats a sum of streams as it treats each of them; with the impulse response this fixes every sample it puts out |
| HubCore.ChannelKeepsPower | srsTwin/integration/hub/hub_core.py:96-119 | A turning phase changes no sample's power |
| HubCore.ScaleKeepsPower | srsTwin/integration/hub/hub_core.py:114-119 | and the gain scales it by its square |
| HubCore.SumAddsUp | srsTwin/integration/hub/hub_core.py:174-212 | The sum adds real and imaginary parts block by block, a block that has ended giving nothing |
| HubCore.IdentityIff | srsTwin/integration/hub/hub_core.py:69-73 | A channel is left out exactly when everything but its unused phase is at its default |
| IqHub.RecycledExactlyAtTheLimit | srsTwin/integration/hub/iqhub.py:132-141 | A slot is given up exactly by its limit-th uplink timeout in a row |
| IqHub.SlotLostIff | srsTwin/integration/hub/iqhub.py:114-253 | Over a tick a connected slot is lost exactly when that timeout happens and it does not ask again; missing the barrier never loses it |
| IqHub.NobodyTwice | srsTwin/integration/hub/iqhub.py:144-221 | No slot is given the same downlink block twice in a tick |
| IqHub.GivenIff | srsTwin/integration/hub/iqhub.py:144-221 | A tick's block goes exactly to the connected slots that ask, to free slots that have asked by its end, and with none connected to the first that asks at all |
| IqHub.FirstAskerIs | srsTwin/integration/hub/iqhub.py:209-221 | That is the first slot of the first poll that found any |
| IqHub.SilentTick | srsTwin/integration/hub/iqhub.py:114-142 | A tick without answers sends silence of exactly the length remembered |
| IqHub.UlBlocksAre | srsTwin/integration/hub/iqhub.py:114-142 | The sum takes exactly the blocks of connected slots that answered, one per slot |
| IqHub.Hub.GatherUl | srsTwin/integration/hub/iqhub.py:114-142 | The loop over the slots does this to connected and miss |
| IqHub.Hub.ServeDl | srsTwin/integration/hub/iqhub.py:167-221 | Exactly the connected slots that ask are served, once; with none connected the first to ask joins |
| IqHub.Hub.Barrier | srsTwin/integration/hub/iqhub.py:182-207 | The polling loops serve each asking slot once, until all are served or the deadline passes |
| IqHub.Hub.PickupJoins | srsTwin/integration/hub/iqhub.py:144-165 | Exactly the free slots that ask join |
| IqHub.Hub.RunTick | srsTwin/integration/hub/iqhub.py:223-243 | A tick keeps: disconnected means miss 0, connected means 0 <= miss below the limit, dl_blocks at most ul_blocks, nobody given more blocks than relayed; what the gNB receives, what every channel has heard by then, and that the size of the downlink block is remembered, a timeout leaving it |
| IqHub.Hub.Run | srsTwin/integration/hub/iqhub.py:223-253 | Over any run every slot's fields are a function of its history, and what the gNB is sent is, block by block, one formula over all that the slots have answered, filled to the last downlink block pulled before, or else to the default |
| StitchLinks.StitchingConserves | srsTwin/integration/trace_stitch/stitch_engine.py:248-385 | Every input record lands in exactly one timeline exactly once, and every timeline is ordered by time, flow rank and procedure id |
| StitchLinks.TimelinesRise | srsTwin/integration/trace_stitch/stitch_engine.py:333-361 | In a timeline a record stands before another only if it is not later; at one time not of a later flow rank; at one rank not of a higher procedure id, a missing one counting as 0 |
| StitchLinks.DedupeKeepsFirst | srsTwin/integration/trace_stitch/stitch_engine.py:318-331 | Of sessions with one id the first is kept |
| StitchLinks.DedupeKeepsIds | srsTwin/integration/trace_stitch/stitch_engine.py:318-331 | and of every id one is |
| Stitch.SegmentsAreExact | srsTwin/integration/trace_stitch/stitch_engine.py:248-291 | Sessions hold exactly the input records, have distinct ids, hold only their own connection's S1AP records, and stand in order of start; a session's end is behind all its records its files are exactly theirs and its S1AP ids the last they give |
| Stitch.OrphansEndUp | srsTwin/integration/trace_stitch/stitch_engine.py:261-288 | Each orphan stands in the result behind the records of the first of the nearest sessions that fitted it when it was placed, or, exactly if none did, in the session of its own id |
| Stitch.OrphanLodges | srsTwin/integration/trace_stitch/stitch_engine.py:261-288 | One placement: that session, and no other, gets the record |
| Stitch.KeyedEndUp | srsTwin/integration/trace_stitch/stitch_engine.py:250-259 | The records with an S1AP id stand at the head of the session of their key, in order |
| Stitch.FitsMeans | srsTwin/integration/trace_stitch/stitch_engine.py:263-270 | A session fits when it has the orphan's M-TMSI and its span comes within five seconds of the orphan |
| Stitch.GapIsNearer | srsTwin/integration/trace_stitch/stitch_engine.py:270-273 | The gap by which sessions are compared is the distance to the nearer end of the span |
| Stitch.OwnIdsMeetIff | srsTwin/integration/trace_stitch/stitch_engine.py:278-288 | Orphans with random values share their own session exactly when the values are equal; a session start without one joins them exactly when its procedure id reads like their value |
| Stitch.OrphanIdsMeetIff | srsTwin/integration/trace_stitch/stitch_engine.py:285-288 | The rest share a session of their own exactly when they are of one procedure and one file |
| Stitch.OwnIdIsNoKey | srsTwin/integration/trace_stitch/stitch_engine.py:239-288 | No orphan's own session is that of an S1AP connection |
| Stitch.SameConnectionSameSession | srsTwin/integration/trace_stitch/stitch_engine.py:239-246 | Records naming S1AP connections share a session exactly when their pairs of S1AP ids are equal |
| Stitch.StartIsEarliestIff | srsTwin/integration/trace_stitch/stitch_engine.py:150-158 | start_ts is the earliest record exactly unless the earliest timestamp is the unreadable 0 and a readable one came last |
| Stitch.FindBest | srsTwin/integration/trace_stitch/stitch_engine.py:263-273 | The orphan search finds the first of the nearest fitting sessions |
| Stitch.CollectKeyed | srsTwin/integration/trace_stitch/stitch_engine.py:250-259 | The first loop, against its specification |
| Stitch.SegmentSessions | srsTwin/integration/trace_stitch/stitch_engine.py:248-291 | The loops compute the specified segmentation |
| StitchLinks.LinkIsExact | srsTwin/integration/trace_stitch/stitch_engine.py:293-331 | Each session is in exactly one UE's list, once: the one of its root key |
| StitchLinks.LinkedAreSegments | srsTwin/integration/trace_stitch/stitch_engine.py:300-303 | Linking changes nothing about a session but its identity, which becomes what its own records show |
| StitchLinks.OneTimelineIffSameImsi | srsTwin/integration/trace_stitch/stitch_engine.py:293-331 | Two sessions of a trace that show IMSIs lie in one UE's list exactly when the IMSIs are equal |
| StitchLinks.OneTimelineByRandomIff | srsTwin/integration/trace_stitch/stitch_engine.py:293-331 | A session known only by a random value lies in the list of a UE with an IMSI exactly when the first session of the trace to show that value showed that IMSI |
| StitchLinks.SameUeIffSameImsi | srsTwin/integration/trace_stitch/stitch_engine.py:304-315 | Two identities with IMSIs have one root key exactly when the IMSIs are equal |
| StitchLinks.RandomJoinsImsiIff | srsTwin/integration/trace_stitch/stitch_engine.py:304-315 | An identity with only a random value has the root key of one with an IMSI exactly when the first to show that value shows that IMSI |
| StitchLinks.SameRandomStaysTogether | srsTwin/integration/trace_stitch/stitch_engine.py:304-315 | Sessions known only by the same random value stay together |
| StitchLinks.RandomOnlyStaysApart | srsTwin/integration/trace_stitch/stitch_engine.py:304-307 | A concrete UE whose two sessions stay apart |
| StitchLinks.FillBuckets | srsTwin/integration/trace_stitch/stitch_engine.py:295-307 | The first linking loop, against its specification |
| StitchLinks.LinkSessions | srsTwin/integration/trace_stitch/stitch_engine.py:293-331 | The three linking loops, against their specification |
| StitchLinks.BuildTimeline | srsTwin/integration/trace_stitch/stitch_engine.py:333-361 | The timeline loop and sort, against their specification |
| StitchLinks.Build | srsTwin/integration/trace_stitch/stitch_engine.py:381-385 | The whole pipeline, against its specification |
| Identity.CanonicalTakesFirst | srsTwin/integration/trace_stitch/identity.py:114-133 | A session's texts, IMSI and random value among them, are the first non-empty ones any record shows |
| Identity.CanonicalTakesFirstNumbers | srsTwin/integration/trace_stitch/identity.py:114-133 | So are its numbers, zero counting like any other |
| Identity.AliasesAreAll | srsTwin/integration/trace_stitch/identity.py:114-133 | Its aliases are those of all its records |
| Identity.KeyLadder | srsTwin/integration/trace_stitch/identity.py:194-212 | The kind of key: an IMSI before a random value before an allocated M-TMSI before an eNodeB UE id, and what its text says |
| Identity.KeyTells | srsTwin/integration/trace_stitch/identity.py:194-212 | What a canonical key says about the identity, and the other way round |
| Identity.PickCanonicalKey | srsTwin/integration/trace_stitch/identity.py:194-212 | The merging loop, against its specification |
| AttachFlow.ProceduresAreExact | srsTwin/integration/dashboard/parse_4g.py:182-214 | The procedures are the stable time-sort of the log cut into non-empty slices, one starting exactly at the beginning and at every start event that follows an ending one, no start at all, or the last start by fifteen seconds |
| AttachFlow.AttachOrderIsPermutation | srsTwin/integration/dashboard/parse_4g.py:251-262 | Ordering loses and repeats no event |
| AttachFlow.GroupIsExact | srsTwin/integration/dashboard/parse_4g.py:226-262 | Inside a procedure: the same events by rank then time, the first without a delay, the others with one of at least 0 |
| AttachFlow.GroupRises | srsTwin/integration/dashboard/parse_4g.py:251-262 | An event stands before another only at a lower rank, or at the same rank and not later |
| AttachFlow.TimesShown | srsTwin/integration/dashboard/parse_4g.py:226-248 | The time shown for an event is its own, for one queued early that of the first carrier |
| AttachFlow.DelaysShown | srsTwin/integration/dashboard/parse_4g.py:244-248 | Its delay is what passed since the time shown above it, never less than nothing, in milliseconds |
| AttachFlow.DelaysCoverTheSpan | srsTwin/integration/dashboard/parse_4g.py:244-248 | The delays add up to at least the time covered, exactly when no event was sent before the one above it |
| AttachFlow.SplitAttachProcedures | srsTwin/integration/dashboard/parse_4g.py:182-214 | The splitting loop, against its specification |
| AttachFlow.AnnotateDelays | srsTwin/integration/dashboard/parse_4g.py:226-248 | The two annotation loops, with the carrier's time for a queued message |
| AttachFlow.OrderAttachFlow | srsTwin/integration/dashboard/parse_4g.py:251-262 | The whole ordering, against its specification |
| AttachKpis.PhasesAddUpIff | srsTwin/integration/dashboard/parse_4g.py:313-330 | Phase durations add up to at least attach_ms, and to exactly it if and only if the phase boundaries only go forward or only go back |
| AttachKpis.ComputeAttachKpis | srsTwin/integration/dashboard/parse_4g.py:265-356 | The report of the latest procedure: a duration per phase in order of appearance, release and session times, attach time within the total, and the outcome its labels decide |
| AttachKpis.WhatIsTimed | srsTwin/integration/dashboard/parse_4g.py:294-307 | Which events are timed: those of named phases if there are any, the release apart unless it is all there is |
| AttachKpis.LatestIsLastProcedure | srsTwin/integration/dashboard/parse_4g.py:282-290 | The report is about everything from the last place on where a procedure opens |
| AttachKpis.ShownTimesCount | srsTwin/integration/dashboard/parse_4g.py:290-292 | Once the flow is ordered the report goes by the time shown for each event |
| AttachKpis.WhereKeepsOrder | srsTwin/integration/dashboard/parse_4g.py:294-307 | Picking events keeps their order |
| AttachKpis.PhaseTable | srsTwin/integration/dashboard/parse_4g.py:316-322 | The dictionary loop keeps each phase's first effective time, in order |
| TraceAlign.AlignTrace | srsTwin/integration/dashboard/parse_4g.py:630-692 | Every event stands in its place with the first fitting record no earlier event took, then the records nobody took in their order: each record in exactly one row |
| TraceAlign.MatchMeans | srsTwin/integration/dashboard/parse_4g.py:664-685 | The record matched is one the event's label contains, of an event of the signalling layers, not taken before; of these the choice that appears first in the trace, and of that choice the first |
| TraceAlign.FindMatch | srsTwin/integration/dashboard/parse_4g.py:671-685 | The two search loops find the unused fitting record that is tried first, or none if there is none |
| TraceAlign.FillLookup | srsTwin/integration/dashboard/parse_4g.py:646-657 | The lookup holds each choice in order of appearance with its records in order |
| StateMachine.NeverBack | srsTwin/digital-twin/state_machine.py:10-80 | No message, known or not, moves a session back in the order of its stages; DONE is reached only from RELEASING |
| StateMachine.MovesAreTransitions | srsTwin/digital-twin/state_machine.py:68-80 | The state moves only on messages the validator accepts, and then along the table |
| StateMachine.TableIsFollowed | srsTwin/digital-twin/state_machine.py:68-80 | A message of the table goes where its own entry says |
| StateMachine.FirstAlikeIsFollowed | srsTwin/digital-twin/state_machine.py:68-80 | Any other name goes where the first entry alike says |
| StateMachine.PathsAreSessions | srsTwin/digital-twin/state_machine.py:10-112 | Every path through the table is an accepted session and ends where the path does |
| StateMachine.WholeSessionIsValid | srsTwin/digital-twin/state_machine.py:10-112 | Attach, failed handover and release: accepted, and done |
| StateMachine.CommandAfterRequestIsRefused | srsTwin/digital-twin/state_machine.py:29-57 | After a release request the release command that answers it is refused |
| StateMachine.WalkNeverBack | srsTwin/digital-twin/state_machine.py:87-98 | Nor does any sequence of messages |
| StateMachine.ValidateSession | srsTwin/digital-twin/state_machine.py:101-112 | The validation loop, against its specification |
| Generator.MaskIsValidatorIff | srsTwin/digital-twin/model.py:128-138 | The mask opens a token exactly when the validator accepts its message or its tail shows a valid one |
| Generator.MaskIsValidatorOnSessions | srsTwin/digital-twin/tokenize_sessions.py:20-32 | For tokens made from sessions mask and validator agree |
| Generator.SessionVocabularyIsPlain | srsTwin/digital-twin/tokenize_sessions.py:35-42 | A vocabulary built from sessions has no token whose tail misleads the mask |
| Generator.OpenedIsValid | srsTwin/digital-twin/model.py:103-161 | Masked generation is sound: from IDLE the messages of opened tokens are accepted by validate_session |
| Generator.Generate | srsTwin/digital-twin/model.py:103-161 | For any choice among the unmasked tokens: every new token is the one drawn from the mask of its state, it stops exactly when the end is drawn or the length is reached |
| Generator.Mask | srsTwin/digital-twin/model.py:128-138 | The mask loops open exactly the end and the opened tokens |
| Generator.GeneratedSessionIsValid | srsTwin/digital-twin/model.py:103-161 | With a vocabulary built from sessions, whatever is generated for a cell up to the end is accepted by validate_session |
| Generator.ContinuationIsValid | srsTwin/digital-twin/model.py:103-161 | Generation goes on with a session: what continues a beginning is accepted exactly when the beginning is |
| Generator.TokenReads | srsTwin/digital-twin/tokenize_sessions.py:20-32 | How a message of a session is written |
| Generator.DoneLeavesOnlyTheEnd | srsTwin/digital-twin/model.py:128-138 | In DONE only the end is open |
| Hawkes.RunningIsDirect | srsTwin/digital-twin/arrival_model.py:45-49 | The running R at event i is the direct sum over all earlier events |
| Hawkes.HawkesLogLikelihood | srsTwin/digital-twin/arrival_model.py:28-55 | Refused arguments give -1e9; all others give the textbook log-likelihood |
| Hawkes.LikelihoodBounds | srsTwin/digital-twin/arrival_model.py:39-53 | It is the logs of the intensities less mu per second and less between nothing and alpha over beta for every arrival |
| Hawkes.PoissonLikelihood | srsTwin/digital-twin/arrival_model.py:39-53 | Without excitation it is the likelihood of a Poisson process |
| Hawkes.SampleIncreases | srsTwin/digital-twin/arrival_model.py:113-135 | Accepted times strictly increase from after 0 to before the end |
| Hawkes.AcceptanceRatio | srsTwin/digital-twin/arrival_model.py:115-132 | Every acceptance ratio is above 0 and at most 1 |
| Hawkes.ThinningIsExact | srsTwin/digital-twin/arrival_model.py:113-135 | Each candidate lies an exponential waiting time past the one before, at the intensity there, and is among the times exactly when it comes before the end and its draw is at most the ratio of the intensity at it to that before it |
| Hawkes.TimesAreCandidates | srsTwin/digital-twin/arrival_model.py:113-135 | Nothing but candidates is among the times |
| Hawkes.PoissonTakesAll | srsTwin/digital-twin/arrival_model.py:113-135 | Without excitation every candidate before the end is accepted: the times are the partial sums of the waiting times |
| Hawkes.SampleHawkes | srsTwin/digital-twin/arrival_model.py:102-135 | The thinning loop, against its specification |
| Templates.TemplateRoundTripIff | poc_StressTest/common/signaling/templates.py:42-71 | Filling a record's template with its own values gives the record back exactly when every other text in it that is one of its tokens stands for itself |
| Templates.FillIsIdentityIff | poc_StressTest/common/signaling/templates.py:56-71 | fill changes a tree exactly when some text in it is a token that stands for something else |
| Templates.FillKeepsShapeIff | poc_StressTest/common/signaling/fidelity.py:21-27 | fill keeps a tree's shape exactly when the tokens the shape can see stand for texts |
| Templates.BuiltMatchesIff | poc_StressTest/common/signaling/fidelity.py:30-41 | A message built from a record's template passes compare exactly when the record names message and id, has no twin-only field, and its decoded shape survives |
| Templates.BuiltCarries | poc_StressTest/common/signaling/catalog.py:164-184 | A built message carries the name, record id, transaction and sidecar it was given, and of every other field of the template the filled value |
| Templates.ShapesTellKinds | poc_StressTest/common/signaling/fidelity.py:21-27 | Values of one shape are of one kind, objects with the same keys |
| Templates.AbstractRecord | poc_StressTest/common/signaling/templates.py:42-53 | The loop over the token fields, against its specification |
| Templates.LookupIsTok | poc_StressTest/common/signaling/templates.py:37-60 | A text is replaced exactly when it is the token of a context field |
| Protocol.Socket.RecvAll | poc_StressTest/common/protocol.py:39-58 | For any payloads below 2^32 bytes and any chunking, receiving gives exactly the payloads sent, in order, with nothing left over |
| Protocol.Socket.RecvMsg | poc_StressTest/common/protocol.py:55-58 | One message is read exactly when a whole one is there; otherwise the peer has closed |
| Protocol.Socket.RecvExact | poc_StressTest/common/protocol.py:45-52 | The loop reads exactly n bytes or fails at the end of the stream |
| Protocol.FrameThenRest | poc_StressTest/common/protocol.py:39-58 | Whatever follows, a frame is read back as its payload and the rest is untouched |
| Protocol.CompleteIsFrame | poc_StressTest/common/protocol.py:39-58 | What is read as a message is exactly its frame |
| Protocol.UnpackPack | poc_StressTest/common/protocol.py:36-42 | The header round trip |
| RfProfiles.AssignProfiles | srsTwin/integration/storm/rf_profiles.py:101-126 | However the shuffle falls, the list has n entries and each profile occurs as often as a fair quota says |
| RfProfiles.QuotaIsFair | srsTwin/integration/storm/rf_profiles.py:114-120 | Counts add up to n, each within 1 of its exact share, and nobody left at its floor had a larger fraction than one rounded up |
| RfProfiles.LeftoverFits | srsTwin/integration/storm/rf_profiles.py:116-120 | The leftover is smaller than the number of profiles: the modulo never wraps |
| RfProfiles.HandOut | srsTwin/integration/storm/rf_profiles.py:119-120 | The loop on the counts array rounds up exactly the first of the order |
| SlotPool.Pool.Play | srsTwin/integration/storm/orchestrate.py:136-183 | Under any schedule arrivals start in the order of the timeline, and play ends with every arrival recorded once and every slot free again |
| SlotPool.Pool.Start | srsTwin/integration/storm/orchestrate.py:164-165 | An arrival takes the slot freed first, and nobody else has it |
| SlotPool.Pool.Finish | srsTwin/integration/storm/orchestrate.py:181-183 | The run is recorded and its slot given back |
| SlotPool.NoSlotIsShared | srsTwin/integration/storm/orchestrate.py:159-183 | No two running arrivals share a slot, and none of theirs is free |
| SlotPool.NobodyWaitsForEver | srsTwin/integration/storm/orchestrate.py:164-183 | As long as an arrival waits, a slot is free or some run will free one |
| LayerB.RunLayerB | srsTwin/integration/storm/orchestrate.py:206-236 | Whatever the arrival times, the launches carry the subscribers from the base on, each exactly once, and nobody else; each launch those of one second, seconds in order |
| LayerB.FillBuckets | srsTwin/integration/storm/orchestrate.py:219-222 | Each bucket is a run of consecutive indices, exactly the arrivals of its second |
| LayerB.SecondCutsTowardsZero | srsTwin/integration/storm/orchestrate.py:219-222 | The second of an arrival is its time cut towards zero |
| LayerB.LaunchedIsProvisioned | srsTwin/integration/storm/generate.py:109-147 | Number for number, launched and provisioned subscribers are the same |
| LayerB.LaunchTextIsProvisionedIff | srsTwin/integration/storm/orchestrate.py:230-232 | The launch argument equals the provisioned text exactly when the number has at least as many digits as the base |
| LayerB.ConfiguredBaseLosesZeros | srsTwin/integration/storm/generate.py:50-56 | With the configured IMSI base the text a subscriber is launched with is a provisioned one, its own or any other's, only from 98 989 876 543 220 subscribers on |
| LayerB.DigitsIncAdds | srsTwin/integration/storm/generate.py:54-56 | Zero-filling never changes the number and keeps the width |
| Arrivals.BurstIsInRange | srsTwin/integration/storm/patterns.py:48-54 | A burst has exactly n arrivals, sorted, inside the run |
| Arrivals.BurstFillsItsWindow | srsTwin/integration/storm/patterns.py:48-54 | A draw lies as far into the window as it says; the window is as long as asked for, at least a microsecond, and starts where asked or as late as lets it end with the run |
| Arrivals.InvertedIsExact | srsTwin/integration/storm/patterns.py:30-45 | The non-uniform patterns: exactly n arrivals, sorted, inside the run, for any intensity; and at every grid point the draws below the intensity's share up to it come before it, the others after |
| Arrivals.InterpInverts | srsTwin/integration/storm/patterns.py:43-45 | Interpolation inverts the distribution at every grid point |
| Arrivals.BetweenIsStraight | srsTwin/integration/storm/patterns.py:43-45 | Between grid points the interpolation is the straight line |
| Arrivals.CdfRises | srsTwin/integration/storm/patterns.py:36-42 | The normalised cumulative sums rise from at least 0 to exactly 1, also when the intensity is nowhere positive |

## Left out

- Network: serve_ue tasks and the sockets are values in a step relation, not objects, because its steps are single awaits of coroutines that share one state.
- UeFlow: the UE's counters, timers and measurement trigger (event A3 of 3GPP TS 36.331, section 5.5.4.4) are left open: a connected UE may do anything its flow allows at any moment. Scaling the number of UEs up and down is not modelled.
- NetworkSafety.QuietMeansEmpty: a link its RU has given up but the DU still holds counts as not quiet; the DU's own read failure, which ends that, is a move that may happen, not one that must. NetworkDrains.AlwaysDrains shows that it always can.
- NetworkRest.RestsGentlyIff: F1 is up when the link an RU writes to is live at the DU and is the one its reader task waits on; an RU whose reader still waits on an older link is not up.
- NetworkDrains.AlwaysDrains: its run consists of failures; the run by releases is that of NetworkRest.RestsGentlyIff.
- NetworkLeaks.FinalUplinkLeaksIff: for runs in which the DU loses no link, since a loss takes the grant without an exchange, with no link given up and no other socket open for that UE and cell, either of which would back the grant; NetworkLeaks.BooksFollowLog needs no such condition for what the DU holds.
- NetworkLeaks.SoleSocketLeaksIff: for UEs with one socket; NetworkLeaks.FinalUplinkLeaksIff is the general one.
- LeakRuns.MixedSocketLeaksIff: for a setup and one more message; LeakRuns.SocketLeaksIff is the one for any uplinks.
- Du: message fields that carry no decision (radio figures shown in replies, timestamps, MCS, free and required PRBs in a refusal) are dropped; the rounding of `sinr`, `se` and throughput is not modelled.
- RfModel: the SINR and spectral efficiency of a UE are inputs; path loss, noise and sector gain are logarithms and trigonometry.
- RuDictionary: a same-site handover removes the row of a live UE, so it promises nothing about the DU.
- LadderTrace: the recorded message bodies and times, and the bytes served over HTTP.
- HubCore: fading taps, downlink noise and the float32 byte layout; uplink channels are unfaded.
- IqHub: sends to a slot do not fail; timings are replaced by which polls find which sockets; log output.
- Stitch: a session is a value replaced in its list, so aliasing between the program's lists is not captured; extract_identity and timestamp parsing are inputs; session ids are texts and may coincide where the program's do.
- StitchLinks: a timeline holds the records themselves, without the copied display fields and statistics.
- AttachKpis: which labels hold the words of an outcome is given.
- AttachFlow: an event's rank, phase and label tests are inputs, and so is the order of timestamp texts; delays are exact instead of rounded.
- TraceAlign: labels and choices are inputs, as is whether one contains the other; the label shown in a row is dropped.
- dedupe_mirror_events: not modelled; its window claim does not hold, since replacing a mirror can leave another inside the window.
- RfProfiles: weights must not be negative or all zero, where numpy gives not-a-number; the shuffle is any rearrangement.
- Arrivals: how the intensities and uniform draws come about; Poisson times are uniform draws scaled to the run.
- LayerB: sleeping until a bucket's second.
- SlotPool: what a container run reports, and the waiting for an arrival's scheduled time.
- Generator: the network's forward pass, temperature and top-k are one arbitrary choice among the open tokens; tensors and context truncation have no part in which tokens are open.
- Hawkes: fitting by random restarts; a uniform draw of exactly 0 makes the sampler's logarithm fail and is excluded.
- Templates: a catalog without a template for a message synthesizes one; loading templates from files.
- Protocol: JSON and UTF-8 coding of payloads; the asyncio twins of the same loops.
- Dashboards, HTTP servers, file and Docker handling, streaming JSON readers, plots: no property over all inputs.
