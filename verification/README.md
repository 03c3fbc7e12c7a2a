# NNAware, modelled and proved in Dafny

NNAware runs a fully connected neural network with one neuron per device over a lossy multicast
medium. A laptop compiles the network into device entries, provisions each device over UDP, and
from then on the devices compute on their own: each takes turns within its layer, and a device
may stand by for a sibling, ask it to repeat a missing output, and finally compute it itself.
This project models that system and proves what it is for. `dafny verify dfyconfig.toml` checks
all of it.

## How the model is built

Every object of the source that updates its fields is a class whose methods are proved against
functions on an abstract state; the theorems are about those functions. Numbers have the
source's width, with wrap-around written out. A `float` is its 32-bit pattern, and addition,
multiplication and the activation functions are left uninterpreted, so the runtime results hold
for rounded arithmetic; exact numbers appear only where the simulator is compared. Which function
a number or a name selects is modelled on both sides.

| part | modules |
|---|---|
| words, masks, bytes | `Words`, `Bytes`, `Options` |
| addresses, wire codec, setup messages | `Addresses`, `Packets`, `SetupMessages`, `StructLayouts`, `WireFormat`, `Messages`, `Transport` |
| one neuron and its objects | `Arithmetic`, `InputBuffers`, `Nodes`, `WeightedSums`, `Schedulers`, `Failover`, `FailoverObjects` |
| one device's loop | `DeviceRuntime` (specification), `Firmware` (the objects and the loop), `TurnEffects` |
| the network and its compilers | `Networks`, `Manifests`, `Deployment`, `Topologies`, `Codegen`, `Simulation`, `Pairings` |
| the running system | `Medium`, `DeviceInvariant`, `ValueSafety`, `StandbyDiscipline`, `TurnOrder`, `CircularWait`, `OutputRetention`, `DirectManifests` |
| progress in infinite executions | `PassProgress`, `Routing`, `DeviceLife`, `Executions`, `Completion`, `FairExecutions` |
| setup | `SetupAgents` (specification), `SetupAgentObjects`, `AgentSafety`, `AgentEffects`, `ChunkAssembly`, `SetupHost`, `HostVerdicts`, `Provisioning`, `ProvisioningRuns`, `CommitReplies` |

The running system (`Medium`) keeps the history of every packet ever sent. A step is one turn of
one device, receiving any finite sequence of packets of the history: packets are lost,
duplicated, reordered and delayed without bound, and a crashed device is one that takes no more
turns. All safety theorems are about every run of that system, for every network
`build_devices` accepts within the address limits. `Transport` shows that these messages are what
the receiver reads after serialization. Progress is proved for infinite executions that are fair
to live devices: they keep taking turns, every packet of their groups reaches them at least once,
they look at their clock often enough to see a grace period end, and, until they and the sibling
they back up have been heard of, no pass in which they have heard anything is dropped for want of
activity. Empty passes may be dropped any number of times; and whoever has received nothing yet,
or something in the last five seconds, satisfies the condition (`Executions.ActiveNeverForgets`).
What a device heard in a pass that is dropped is lost to it, so the condition is needed. Such
executions exist for every network that has a device or an input, whichever devices stay silent
(`FairExecutions`).

The parts are joined: `Manifests` and `Deployment` show that the compiled and provisioned
configuration is the one `Networks.ConfigOf` describes, which the running system assumes.

## What the code does that its documentation does not say

- A second COMMIT_REQUEST is answered with success 0 by a configured device. A reported success
  can be trusted (`ProvisioningRuns.TrueMeansConfigured`); a failure reported on a reply means that
  the one reply with success was lost, and that the device is configured nevertheless
  (`CommitReplies.FailureMeansReplyLost`, with such a run for every device in
  `ProvisioningRuns.FailureDespiteConfigured`).
- The sketch arms two retransmissions of every own output. They outlive the turn, and a resend
  request can be answered, exactly while the device watches an unheard sibling
  (`OutputRetention.OutputIsKept`, `OutputRetention.RequestsAreAnswered`). A compute device without
  a backup duty closes its pass in the same turn and does neither (`OutputRetention.NeverRepeats`).
- The directly written manifest marks the last layer with successor 255, which the runtime takes
  to mean that there is no sibling group. No node of that layer but the first ever reaches its turn
  (`DirectManifests.TurnNeverComes`): the layer completes only through stall releases
  (`DirectManifests.TerminalSpeaks`). The compiled manifest does not have this effect.
- `parse_packet` is said to mirror `deserializePacket`; it lacks the limit of sixteen words
  (`WireFormat.LaptopAcceptsMore`).
- `validateBackupConfig` compares the number of weights, not the weights, and not the predecessor
  layer; it takes biases of 0 and -0 for equal, and finds fault with a NaN bias mirrored exactly
  (`Failover.ValidatedMirror`, `Pairings.ValidatedCanDiffer`).
- After a reboot the layer in which turns are observed is the device's own; before, it is the
  layer the device had when its topology arrived (`AgentSafety.RebootRoundTrip`, and
  `AgentSafety.LayersCanDiffer` for deliveries that make them differ).
- Recovery without turn release depends on where the target and its backers stand:
  `Pairings.SingleCrashIsDecided` and `Pairings.CrashedExecutionRecovers` give the exact condition.

## Model

| member | source | states |
|---|---|---|
| Addresses.DecodeEncode | src/NNAddress.h:15-30 | decoding an encoded address gives the address back |
| Addresses.EncodeDecode | src/NNAddress.h:15-30 | every 16-bit word is the encoding of the address read from it |
| Addresses.FieldsSurvive | src/NNAddress.h:15-30 | four fields survive encoding and decoding exactly when each of them fits in four bits |
| Addresses.FloatRoundTrip | src/NNFailover.h:240-241 | an encoded address cast to float and back is unchanged, for all 65536 of them |
| Addresses.FloatIsExact | src/NNFailover.h:164-172 | the float an address is cast to has exactly the address as its value, as sign, exponent and fraction of a binary32 number |
| Addresses.CastTruncates | src/NNFailover.h:240-241 | the cast back truncates toward zero, gives 0 below one, and is undefined from 2^16 and from -1 on |
| Packets.ComputeChecksum | src/NNPacket.h:32-38 | the loop with its wrapping 16-bit sum yields the byte sum modulo 256 |
| Packets.ChecksumIsByteSum | src/NNPacket.h:31-38 | nothing sums to 0, one byte to itself, and a concatenation to the sum modulo 256: the laws that determine the checksum |
| Packets.FieldsTravelAt | src/NNPacket.h:42-75 | which byte of an encoded packet carries which header field and which byte of which word, and that byte 7 is the checksum of the rest |
| Packets.Serialize | src/NNPacket.h:42-75 | writes the encoding at the front of the buffer and nothing else, or nothing at all when it does not fit |
| Packets.Deserialize | src/NNPacket.h:78-133 | accepts and fills the packet variable in place as the decoding function says, leftovers included |
| Packets.PacketVariable.ReadPayload | src/NNPacket.h:121-130 | the payload loop replaces exactly the counted words |
| Packets.AcceptedExactly | src/NNPacket.h:78-119 | a buffer is accepted exactly when length, checksum, count and total size fit |
| Packets.DecodeEncode | src/NNPacket.h:42-133 | what is sent is what is received, up to the checksum field |
| Packets.EncodeDecode | src/NNPacket.h:42-133 | every accepted buffer is the encoding of the packet read from it |
| Packets.WrongLengthRefused | src/NNPacket.h:115-119 | every proper prefix and every extension of an encoded packet is refused |
| Packets.WrongByteRefused | src/NNPacket.h:85-95 | every single changed byte of an encoded packet is noticed |
| Packets.SwappedBytesAccepted | src/NNPacket.h:31-38 | two exchanged payload bytes are never noticed: what an additive checksum misses |
| Packets.FitsTransport | src/NNTransportUDP.h:43-46 | a packet fits the 64-byte transport buffer exactly when it has at most fourteen words |
| Transport.RuntimeMessageSurvives | src/NNPacket.h:42-133 | a runtime packet read after the wire is the message that was sent |
| SetupMessages.UnpackPack | tools/nn_setup/setup_messages.py:57-142 | for any list of field widths and values in range, packing and unpacking returns every field |
| SetupMessages.FieldsComeBack | src/NNSetupProtocol.h:48-134 | every message is named again by its own field values, all of which are in range |
| SetupMessages.MessageSurvives | src/NNSetupProtocol.h:139-157 | any setup message packed into a packet, sent and unpacked is the same message, straddling fields included, whatever the receiving variable held before |
| SetupMessages.WireSizes | src/NNSetupProtocol.h:46-136 | every setup message fits the 64-byte transport buffer, and exactly the weights chunks fill it |
| StructLayouts.SetupHeader | src/NNSetupProtocol.h:139-150 | the packet around a setup struct is CONTROL with the opcode in its flags, its length in words, and the struct at the front of its payload memory |
| StructLayouts.IdLies | src/NNSetupProtocol.h:48-130 | every setup struct but START begins with the eight bytes of the device it is for |
| StructLayouts.ShortStructs | src/NNSetupProtocol.h:48-134 | opcodes and byte offsets of HELLO, ASSIGN_ADDRESS, COMMIT_REQUEST, START and INPUT_VALUE |
| StructLayouts.ReplyStructs | src/NNSetupProtocol.h:109-130 | opcodes and byte offsets of COMMIT_REPLY, ACK and NACK |
| StructLayouts.TopologyStruct | src/NNSetupProtocol.h:59-73 | opcode and byte offset of every field of TOPOLOGY_INFO, the bias at 17 |
| StructLayouts.DutyStruct | src/NNSetupProtocol.h:86-98 | opcode and byte offset of every field of BACKUP_ROLE_INFO, the grace period at 16, the bias at 21 |
| StructLayouts.ChunkStructs | src/NNSetupProtocol.h:76-83 | opcodes and byte offsets of both weights chunks |
| WireFormat.ReverseWordsTwice | tools/nn_setup/wire_format.py:38-56 | reversing the bytes of each word twice is the identity |
| WireFormat.ReversedIsWire | tools/nn_setup/wire_format.py:38-56 | word reversal of struct bytes is what a little-endian device puts on the wire for the same bytes in memory |
| WireFormat.Parse | tools/nn_setup/wire_format.py:88-117 | the statements of parse_packet compute its specification |
| WireFormat.BuildersAgree | tools/nn_setup/wire_format.py:59-85 | laptop and firmware build the same bytes for the same message |
| WireFormat.ParsersAgree | tools/nn_setup/wire_format.py:88-117 | on every buffer with a count of at most 16 the laptop accepts exactly the firmware's CONTROL packets, with the same struct bytes |
| WireFormat.LaptopAcceptsMore | tools/nn_setup/wire_format.py:111-113 | the laptop accepts what the firmware refuses exactly on well-formed CONTROL buffers with more than 16 words |
| WireFormat.LaptopToDevice | tools/nn_setup/wire_format.py:59-85 | the device reads every message the laptop builds |
| WireFormat.DeviceToLaptop | tools/nn_setup/wire_format.py:88-117 | the laptop reads every message the device builds |
| InputBuffers.InputBuffer.StoreInput | src/NNBuffer.h:51-57 | stores one sender's values, overwriting its earlier ones, or refuses and changes nothing |
| InputBuffers.StoredExactly | src/NNBuffer.h:51-57 | up to sixteen values of a sender below sixteen replace its earlier ones, anything else is refused |
| InputBuffers.InputBuffer.IsComplete | src/NNBuffer.h:60-62 | complete exactly when every expected sender has a filled slot |
| InputBuffers.InputBuffer.WeightedSum | src/NNNode.h:58-66 | the nested loops compute the running sum over the gathered inputs, for any mask |
| InputBuffers.InputBuffer.Reset | src/NNBuffer.h:70-73 | empties every slot |
| InputBuffers.GatherLength | src/NNNode.h:58-66 | with one value per sender as many inputs are summed as the mask has bits |
| InputBuffers.GatherAt | src/NNNode.h:58-66 | a sender's value sits at the index that counts the smaller senders of the mask |
| InputBuffers.GatherValueAt | src/NNNode.h:58-66 | with any number of values per sender, each value comes after all values of the smaller senders of the mask, in its own order |
| WeightedSums.ArrivalDoesNotMatter | src/NNNode.h:46-50 | two deliveries of the same inputs in any order, with any repetitions and any other layers' packets, leave the node in the same state |
| WeightedSums.EveryInputMeetsItsWeight | src/NNNode.h:52-71 | for any mask with one value per sender and as many weights as bits, each sender's value meets the weight indexed by the number of smaller senders |
| Arithmetic.NeuronIsSimulated | tools/nn_mapper/core/simulate.py:37-46 | over exact numbers the device's order of summation equals the simulator's bias plus dot product |
| Nodes.Node.OnPacketReceived | src/NNNode.h:46-50 | stores packets of the predecessor layer only |
| Nodes.Node.Execute | src/NNNode.h:58-71 | the output becomes the activation of the weighted sum of the stored inputs |
| Nodes.OutputBecomesInput | src/NNNode.h:46-89 | the packet a node builds is taken in by a node of the next layer as that sender's only value, and by no other layer |
| Networks.CodeMeansName | src/NNActivation.h:5-15 | the activation number a layer is configured with selects the function of the name the layer has in the manifest and in the simulator |
| Schedulers.Scheduler.Advance | src/NNScheduler.h:34-55 | one tick moves the turn-taking state as specified, executing the node on the way |
| Schedulers.Scheduler.OnPacketObserved | src/NNScheduler.h:26-31 | exactly the siblings of the own layer are marked as observed |
| Schedulers.Scheduler.HasOutputReady | src/NNScheduler.h:63-68 | hands out the output once, when it is the node's turn |
| Failover.ElapsedAcrossWrap | src/NNFailover.h:104 | unsigned clock differences are true spans as long as the span is below 2^32 ms, wherever the clock wraps |
| Failover.RequestReachesTarget | src/NNFailover.h:164-172 | a resend request is understood by its target and by no other node |
| Routing.RequestIsHeard | examples/Device_Setup/Device_Setup.ino:408-416 | in every run a resend request goes to a group that the node it names has joined, and a failover report to group 254 |
| Failover.SubstituteIsTargetOutput | src/NNFailover.h:174-199 | from equal inputs a mirror's substitute has the target's identity and value, for any mask |
| Failover.ValidatedExactly | src/NNFailover.h:314-354 | no issue is found exactly when identity, layer, activation, mask and number of weights agree and the biases are equal as floats |
| Failover.IssuesExactly | src/NNFailover.h:314-354 | each issue is raised for its own difference and for no other |
| Failover.ValidatedMirror | src/NNFailover.h:314-354 | a role mirrors its target exactly when weights, predecessor layer and bias pattern agree and the validator finds nothing, or only a bias that is NaN |
| FailoverObjects.Standby.OnPacketObserved | src/NNFailover.h:58-78 | an observed packet updates target, siblings and inputs as specified |
| FailoverObjects.Standby.Advance | src/NNFailover.h:81-112 | one tick requests, waits, substitutes or tears down as specified |
| FailoverObjects.Standby.ComputeSubstituteOutput | src/NNFailover.h:174-199 | queues the target's value under the target's address, and the report |
| FailoverObjects.Responder.OnPacketObserved | src/NNFailover.h:236-252 | only a request that names this node and finds an output is remembered |
| FailoverObjects.Suppressor.ShouldAccept | src/NNFailover.h:277-288 | drops packets for a slot a substitute has claimed, and claims slots for substitutes |
| StandbyDiscipline.StandbyIsDisciplined | src/NNFailover.h:58-149 | over any calls: first one request, then at least the grace period later at most one outcome; source, type, flags and named node of what is queued and reported match the branch taken |
| StandbyDiscipline.EventsAreQueued | src/NNFailover.h:159-210 | every request and outcome is queued for transmission in the call that decides it, an outcome with its report |
| StandbyDiscipline.StandbyKnows | src/NNFailover.h:58-78 | over any calls: target observed, siblings heard and inputs held are exactly those of the packets shown |
| StandbyDiscipline.TickDecides | src/NNFailover.h:81-112 | when a tick asks, waits, substitutes or tears down, in terms of what is known and the time waited |
| StandbyDiscipline.ObservedTargetEndsIt | src/NNFailover.h:63-66 | once the target is observed nothing more is ever queued in the pass |
| Pairings.CompiledSubstitute | tools/nn_setup/generate_manifest.py:231-242 | for every backup the compiler emits the substitute is the target's own packet |
| Pairings.ValidatedCanDiffer | src/NNFailover.h:343-345 | a pairing without any validation issue whose substitute carries another value than its target |
| Firmware.Device.constructor | examples/Device_Setup/Device_Setup.ino:256-316 | the objects startRuntime creates are in the specified start state |
| Firmware.Device.DispatchPacket | examples/Device_Setup/Device_Setup.ino:340-361 | DATA feeds node, scheduler and standby, CONTROL the responder, nothing else is fed |
| Firmware.Device.ReleaseStalledTurn | examples/Device_Setup/Device_Setup.ino:182-200 | the marker loop makes the scheduler see every preceding sibling |
| Firmware.Device.MaybeReleaseStalledTurn | examples/Device_Setup/Device_Setup.ino:202-216 | the stall timer is disarmed, armed, or has run out and releases the turn |
| Firmware.Device.ServiceRetransmits | examples/Device_Setup/Device_Setup.ino:169-180 | every due slot is sent once more and rescheduled |
| Firmware.Device.ClosePassNow | examples/Device_Setup/Device_Setup.ino:226-242 | closing the pass resets every object and drops every retransmission |
| Firmware.Device.RunRuntimeStep | examples/Device_Setup/Device_Setup.ino:318-426 | one turn of the whole device is the step function of the system model |
| TurnEffects.ActsOnWhatItHeard | examples/Device_Setup/Device_Setup.ino:362-380 | which phase a turn reaches, what it computes and when its standby decides, from everything the turn has received |
| TurnEffects.SaysInOrder | examples/Device_Setup/Device_Setup.ino:370-420 | the packets a turn sends, in order: own output in turn, report, the standby's packet to the right group, due reply, due repetitions |
| TurnEffects.SaysAndArms | examples/Device_Setup/Device_Setup.ino:370-420 | which sends arm two repetitions, and what sending leaves of standby, responder and turn order |
| TurnEffects.RepeatedTwice | examples/Device_Setup/Device_Setup.ino:160-180 | an armed packet is repeated at the first look 150 ms later, once more another 150 ms later, and never again |
| TurnEffects.PassClosesExactly | examples/Device_Setup/Device_Setup.ino:220-254 | a turn closes the pass exactly when it is managed and either the output is out with nobody left to watch for or nothing was received for 5000 ms |
| TurnEffects.ClosedIsStarted | examples/Device_Setup/Device_Setup.ino:226-242 | a closed pass leaves the device as it was started |
| TurnEffects.StartedIsEmpty | examples/Device_Setup/Device_Setup.ino:256-316 | what a started device holds, and when it has a standby |
| TurnEffects.StallExactly | examples/Device_Setup/Device_Setup.ino:202-216 | when the stall timer is stopped, started, or after 1500 ms releases the turn, and what that changes |
| TurnEffects.HeardExactly | examples/Device_Setup/Device_Setup.ino:328-361 | what one received packet changes, and which packets a claimed slot keeps out |
| TurnEffects.SubstituteStays | src/NNFailover.h:277-288 | once a substitute is taken in nothing later replaces it in the pass |
| DeviceRuntime.ReceiveAllFrame | examples/Device_Setup/Device_Setup.ino:318-368 | receiving changes what a device knows, not what it has queued to say |
| DeviceInvariant.StepGood | examples/Device_Setup/Device_Setup.ino:318-426 | a device with a right configuration that hears right inputs stays right and says only right things |
| ValueSafety.DistributedInferenceIsCorrect | examples/Device_Setup/Device_Setup.ino:318-426 | in every run, with any loss, duplication, reordering, crash, reset, release, resend and substitute, every DATA packet carries exactly its neuron's evaluated value |
| ValueSafety.TeardownIsUnreachable | src/NNFailover.h:106-111 | in every run of a compiled network no standby tears its target down and no report announces it |
| TurnOrder.OwnOutputsInTurn | src/NNScheduler.h:46-50 | without turn release a node's own packet is preceded on the medium by DATA under every smaller identity of its layer |
| CircularWait.CircularWaitIsPermanent | examples/Device_Setup/Device_Setup.ino:202-216 | when every backer of a node that sends no DATA waits for yet another later sibling, no identity from that node on ever appears without turn release |
| PassProgress.QuietTurnStaysEmpty | examples/Device_Setup/Device_Setup.ino:244-252 | a turn that receives nothing leaves an empty pass empty, whether or not it closes it as idle |
| Executions.ActiveNeverForgets | examples/Device_Setup/Device_Setup.ino:244-252 | a device that so far has received nothing at all, or something within the idle time, never loses anything by an idle close |
| Completion.EveryNeuronAppears | src/NNScheduler.h:34-68 | in every fair execution every neuron's output appears, faulty ones included, if each faulty device has a live backer that waits for nobody after it; without faults nothing is asked of the backups; empty passes may idle out any number of times |
| Completion.ReleaseRestoresCompletion | examples/Device_Setup/Device_Setup.ino:202-216 | with stalled turns released every single fault per layer with a live backer is recovered |
| FairExecutions.FairExecutionExists | examples/Device_Setup/Device_Setup.ino:318-426 | for any set of devices that never take a turn there is an execution that is fair to all others and releases stalled turns |
| FairExecutions.SilentDevicesAreReplaced | examples/Device_Setup/Device_Setup.ino:202-216 | with at most one such device in a layer, each with a live backer, every neuron's output appears in that execution |
| Pairings.SingleCrashIsDecided | src/NNFailover.h:85-99 | one crash, any number of backers: if every backer waits for a later sibling other than itself, no run without turn release gets past the crash, and otherwise every fair execution computes the whole network |
| Pairings.CrashedExecutionRecovers | src/NNFailover.h:85-99 | in a fair execution without turn release the crashed node's output, and every neuron's, appears exactly when some backer waits for nobody after it |
| Pairings.RecoverableOrNot | src/NNFailover.h:85-99 | the hypothesis of the progress theorem is, for one crash, the negation of that of the circular wait |
| OutputRetention.OutputIsKept | examples/Device_Setup/Device_Setup.ino:220-254 | a turn that sends the own output keeps it, with two retransmissions pending, exactly when the pass is unmanaged or the device still watches an undecided target and is not idle; otherwise it keeps nothing |
| OutputRetention.RepeatsWhenDue | examples/Device_Setup/Device_Setup.ino:169-180 | a kept output is sent again in every turn in which its slot is due, and its count goes down by one |
| OutputRetention.SaidOnce | src/NNScheduler.h:63-68 | once said, the own output is not handed out again in the pass, only repeated when due |
| OutputRetention.RequestsAreAnswered | src/NNFailover.h:236-262 | in every run a compute device answers exactly the turns in which it is asked and holds its output, with its neuron's value, and holds it between turns only while it watches an undecided target |
| OutputRetention.NeverRepeats | examples/Device_Setup/Device_Setup.ino:220-254 | without a backup duty a compute device therefore sends its own output or nothing in every turn of every run: no retransmission, no answer |
| DeviceLife.InformedSpeaks | src/NNScheduler.h:34-68 | a device that keeps taking turns and hears its inputs and preceding siblings speaks |
| DeviceLife.UnheardTargetIsSubstituted | src/NNFailover.h:81-112 | a standby that hears its inputs and all siblings but a silent target speaks for the target |
| DeviceLife.ReleasedSpeaks | examples/Device_Setup/Device_Setup.ino:202-216 | a device that hears its inputs speaks even after a silent sibling, once the stall time has passed |
| Routing.WhoHears | examples/Device_Setup/Device_Setup.ino:261-268 | a layer's outputs reach the next layer and every sibling that has to observe them |
| SetupAgentObjects.ChunksCover | src/NNSetupProtocol.h:317-330 | the mask comparison says that every expected chunk has been received |
| SetupAgentObjects.SetupAgent.MaybeAdvanceToVerifying | src/NNSetupProtocol.h:333-339 | advances exactly when both arrays are complete, and sets the weight pointers |
| SetupAgentObjects.SetupAgent.CopyChunk | src/NNSetupProtocol.h:381-384 | the copy loop writes the chunk's values at its offset, clipped at the end of the array |
| SetupAgentObjects.SetupAgent.HandleCommitRequest | src/NNSetupProtocol.h:441-490 | commits, saves and replies as specified |
| SetupAgentObjects.SetupAgent.OnSetupPacket | src/NNSetupProtocol.h:247-259 | any packet changes the agent and is answered as the specification says |
| AgentEffects.AnswersExactly | src/NNSetupProtocol.h:341-498 | which messages are acknowledged, refused with reason 1, answered by a COMMIT_REPLY or not at all, and that nothing else changes the agent |
| AgentEffects.NextPhase | src/NNSetupProtocol.h:333-498 | for every phase and message the next phase, in both directions: RUNNING exactly by START with 0x4E4E5354 from CONFIGURED, VERIFYING exactly when all chunks are there |
| AgentEffects.AdvanceExactly | src/NNSetupProtocol.h:333-339 | VERIFYING exactly when all chunks of both arrays are there, with the pointers that are set |
| AgentEffects.ConfigurationTaken | src/NNSetupProtocol.h:341-418 | what an accepted address, topology, backup duty or input value leaves in the agent |
| AgentEffects.ChunkTaken | src/NNSetupProtocol.h:372-431 | an accepted chunk changes exactly its eleven places and its bit |
| AgentEffects.CommitTaken | src/NNSetupProtocol.h:441-490 | success, checksums, backup flag and what is saved, exactly in VERIFYING |
| SetupAgentObjects.SetupAgent.RestoreFrom | src/NNSetupProtocol.h:500-528 | the saved configuration is taken over field by field |
| AgentSafety.HandleSafe | src/NNSetupProtocol.h:333-498 | one message: the invariant is kept, success is reported only from VERIFYING, RUNNING is entered only by START in CONFIGURED, committed weights stay |
| AgentSafety.AlwaysSound | src/NNSetupProtocol.h:247-498 | over any packets VERIFYING and later mean both arrays complete, and from the commit on the device runs on what it saved |
| AgentSafety.FrozenUntilTopology | src/NNSetupProtocol.h:348-431 | from commit until the next TOPOLOGY_INFO no packets change weights, topology or backup duty |
| AgentSafety.SuccessMeansComplete | src/NNSetupProtocol.h:441-490 | from power-up, success is reported only with both arrays complete, and a running device runs on what it saved |
| AgentSafety.RebootRoundTrip | src/NNSetupProtocol.h:454-528 | save and restore give the same configuration exactly when no address of another layer was assigned after the topology |
| AgentSafety.LayersCanDiffer | src/NNSetupProtocol.h:341-370 | deliveries to a fresh agent after which it is VERIFYING and the two layers differ |
| ChunkAssembly.AnyOrderReassembles | src/NNSetupProtocol.h:372-431 | chunks of both arrays in any order and number: received slices are in place, VERIFYING is reached exactly with the last missing chunk, and then both arrays are whole |
| SetupHost.BuildDevicePackets | tools/nn_setup/setup_tool.py:40-95 | the packets of a device, in order, with consecutive sequence numbers |
| SetupHost.ChecksumPredicted | tools/nn_setup/setup_messages.py:43-54 | the laptop predicts the device's checksum of the same weights |
| SetupHost.SendAndWait | tools/nn_setup/setup_tool.py:98-141 | returns the first answer that counts in any attempt and sends exactly as often as needed for it |
| SetupHost.ProvisionDevice | tools/nn_setup/setup_tool.py:144-185 | returns the specified outcome of the datagrams it is given |
| HostVerdicts.JudgeExactly | tools/nn_setup/setup_tool.py:119-140 | which datagrams end the wait for a reply, well, badly or with an exception, read off their bytes |
| HostVerdicts.SuccessExactly | tools/nn_setup/setup_tool.py:144-185 | True exactly when each packet is first answered by its ACK and the commit request first by a COMMIT_REPLY with success and the byte sums of the weights sent |
| HostVerdicts.RaisesExactly | tools/nn_setup/setup_tool.py:119-173 | an exception exactly on an answer of the wrong length, or on an ACK to the commit request |
| Provisioning.PacketHandled | src/NNSetupProtocol.h:341-490 | packet i handled next or once more brings the device to stage i + 1 and is answered as expected |
| Provisioning.FirstCommit | src/NNSetupProtocol.h:441-490 | the first commit request configures the device as intended and is answered with success and the predicted checksums |
| Provisioning.LaterCommit | src/NNSetupProtocol.h:446 | every later commit request is answered with success 0 and changes nothing |
| Provisioning.EndToEnd | tools/nn_setup/setup_tool.py:40-95 | the built datagrams, each delivered once or more and in order, configure a fresh device exactly as the manifest says |
| Provisioning.EndsRunning | src/NNSetupProtocol.h:492-498 | the built datagrams followed by the START broadcast leave the device RUNNING on the intended configuration |
| ProvisioningRuns.TrueMeansConfigured | tools/nn_setup/setup_tool.py:144-185 | over lossy, duplicating channels shared with other devices: True means that the device is CONFIGURED exactly as intended, and no exception is raised |
| CommitReplies.SuccessIsSentOnce | src/NNSetupProtocol.h:441-490 | in every run the device sends a reply with success exactly in the event in which it becomes CONFIGURED, and at most once |
| CommitReplies.FailureMeansReplyLost | tools/nn_setup/setup_tool.py:159-178 | when a datagram ends the laptop's wait the device is configured; the result is success exactly if it is that one reply, and failure exactly if every copy of that reply was lost before |
| ProvisioningRuns.FailureDespiteConfigured | src/NNSetupProtocol.h:446 | for every device a run in which the laptop reports a failure although the device is configured as intended |
| ProvisioningRuns.OutcomeIsDecided | tools/nn_setup/setup_tool.py:155-185 | provision_device returns what the laptop's transitions decide on the datagrams it reads |
| ProvisioningRuns.OthersAreDeviceNoise | src/NNSetupProtocol.h:341-443 | messages addressed to other devices change nothing in any state |
| ProvisioningRuns.OthersAreHostNoise | tools/nn_setup/setup_tool.py:127-140 | answers of other devices are ignored |
| Manifests.BuildDevices | tools/nn_setup/generate_manifest.py:120-245 | succeeds exactly on well-shaped networks with enough devices, with one entry per device in order, each on the id in its place |
| Manifests.CheckLayer | tools/nn_setup/generate_manifest.py:146-179 | a layer passes exactly when its rows, biases and pairings have the right shape |
| Manifests.AddressesUnique | tools/nn_setup/generate_manifest.py:190-245 | no two devices share the 16-bit address they are reached under |
| Manifests.OneWeightPerPredecessor | tools/nn_setup/generate_manifest.py:206-245 | weights and backup weights are as many as their predecessor mask has bits |
| Manifests.CompiledEntry | tools/nn_setup/generate_manifest.py:186-243 | every field of every entry: masks as sets, successor and slot, rows and biases, defaults of 0.0 and 50 ms, and the whole backup duty |
| Networks.RolesMirror | tools/nn_setup/generate_manifest.py:231-242 | every compiled backup role copies its target's own configuration |
| Networks.OutputIsValue | src/NNNode.h:58-71 | slots holding the previous layer's values make a compiled neuron compute its evaluated value |
| Deployment.CompiledIsIntended | tools/nn_setup/device_manifest.py:90-162 | every compiled entry parses, fits the wire and asks for exactly the neuron's configuration |
| Deployment.ProvisionedAsCompiled | tools/nn_setup/setup_tool.py:144-185 | a compiled device that is provisioned successfully runs exactly the configuration the runtime theorems assume, and holds the input value they start it with |
| ChunkAssembly.ChunkSays | tools/nn_setup/setup_tool.py:60-85 | index, total, valid count and padded values of every chunk that is sent |
| Deployment.ParsedExactly | tools/nn_setup/device_manifest.py:90-162 | an entry is refused exactly for a duty in another layer, and otherwise taken over field by field |
| Topologies.NodeSays | tools/nn_mapper/core/topology.py:18-74 | every field of every node dictionary, input nodes and the last layer included |
| Topologies.BuildTopology | tools/nn_mapper/core/topology.py:18-74 | one list of node dictionaries per layer, each node as specified |
| Codegen.SameRule | tools/nn_mapper/core/codegen.py:55-77 | the mapper rejects a layer's pairings exactly when the manifest compiler would |
| Codegen.ModelToNetwork | tools/nn_mapper/core/codegen.py:80-134 | emits every layer, or fails exactly on an unknown layer or a bad pairing |
| Codegen.GraceArrives | tools/nn_mapper/core/codegen.py:101-130 | a given grace period reaches exactly the layers with pairings, the others get 50 ms |
| Codegen.EmittedIsShapeValid | tools/nn_mapper/core/codegen.py:80-134 | what the mapper emits passes every shape check of the manifest compiler |
| Codegen.AssignHardwareIds | tools/nn_mapper/core/codegen.py:201-219 | the ids go to the nodes in order, or none does when the count differs |
| Codegen.CompilersAgree | tools/nn_mapper/core/codegen.py:222-251 | both compilers list the same devices with the same fields, except for the terminal successor |
| DirectManifests.DirectIsIntended | tools/nn_mapper/core/codegen.py:222-251 | an entry of the directly written manifest parses, fits the wire and asks for the neuron's configuration, with successor 255 in the terminal layer |
| DirectManifests.TurnNeverComes | examples/Device_Setup/Device_Setup.ino:261-268 | in every run of a directly written manifest an output of a terminal-layer node other than the first appears only if that node has released its turn |
| DirectManifests.TerminalSpeaks | examples/Device_Setup/Device_Setup.ino:202-216 | the first terminal node speaks as soon as it has heard its inputs, every other one once its stall time has passed |
| Pairings.DetectionCaveats | tools/nn_mapper/core/codegen.py:137-169 | for any pairing dictionary: one caveat for a layer of two, one for exactly the pairs whose target is not the last node, in ascending order of the backers |
| Pairings.CaveatCoversCircularWait | tools/nn_mapper/core/codegen.py:149-153 | the target_not_last caveat is raised for exactly the circular waits and one further kind of pairing |
| Pairings.CircularWaitWasAnnounced | tools/nn_mapper/core/codegen.py:137-169 | every pairing that ends in a permanent circular wait has a caveat |
| Pairings.NoCaveatNoRelease | tools/nn_mapper/core/codegen.py:137-169 | pairings without the caveat never need a turn to be released |
| Simulation.ValuesAreEvaluated | tools/nn_mapper/core/simulate.py:23-48 | the evaluator the devices are proved against is the generic one on their own numbers |
| Simulation.SimulateAll | tools/nn_mapper/core/simulate.py:23-48 | every neuron's simulated output is what that evaluator gives over exact numbers |

## Left out

- The clock is read once per turn of a device; the sketch reads it several times, a few instructions apart.
- A float payload outside the range of a 16-bit integer is cast with undefined behaviour by the responder; the model takes it as naming no node.
- SetupAgentObjects.SetupAgent.OnSetupPacket: does not model packets whose weight counts exceed 64 or whose chunk claims more than eleven values, because the firmware then reads beyond its arrays, which C++ leaves undefined.
- Packet sequence numbers of runtime packets, and the group filter of the transports in the safety theorems, which hold for packets from any group.
- HELLO announcements, hardware discovery and the START broadcast at the end of provisioning are not part of the provisioning runs; the agent's reaction to START is modelled.
- A device that leaves RUNNING by rebooting in the middle of a run, and runs over more than one input vector: closing a pass leaves stale duplicates of the old vector in flight.
- Sockets, WiFi, serial output, the BLE and MQTT transports, `NNPacketQueue`, the app and its command lines, and the generated C++ headers.
- JSON reading: dictionaries are datatypes, the string keys of "backups" are numbers, and hardware ids are numbers in both compilers.
- Node dictionaries are values: `assign_hardware_ids` returns new ones instead of changing shared ones in place.
- Error messages: an error names its kind and place, and a bad pairing is one kind of error.
- `expf`, `tanhf` and the rounding of floating-point operations: activation and arithmetic are uninterpreted.
- Completion.EveryNeuronAppears: does not bound the time until an output appears, because the source gives no bound on delivery.
