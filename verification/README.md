# Openqiara: verified models of the gateway's state machines and codecs

Openqiara is the local gateway of an alarm camera. This project models the
parts of it that do no I/O: the alarm and the driver of its siren, the radio
engine that provisions sensors, the bytecode compiler and the sensor's virtual
machine, the HomeKit Data Stream and its value codec, the prebuffer and the
muxer of a recording, the path of a video frame to RTP, TLV8 lists, managed
radio frames and the registry of paired sensors.

Where the source is a type whose methods update its fields, there is a `class`
with the same fields and methods (`AlarmClass.Engine`,
`SirenDriverClass.SirenDriver`, `RadioClass.Engine`, `PrebufferClass.Prebuffer`,
`MuxerClass.Muxer`, `Multicast.Assembler`, `RtpClass.Packetizer`,
`HdsClass.Conn`, `HdsMatch.DataStream`, `OpackClass.Decoder`, `RegistryClass.Registry`), each method
proved to do what a function on values says; loops are `method`s with loops. The
results are lemmas about those functions: over every run, every input or every
byte string.

- **Alarm** (`SirenDriver.dfy`, `AlarmEngine.dfy`, `AlarmSystem.dfy`). The
  engine, the driver and the siren as one step system. Commands reach the siren
  in order and late; its reports come at any time, repeated, reordered or never;
  files fail to be written; the camera restarts anywhere. `Drain` is the siren
  once what is queued has arrived. The range over the map of alarms is a choice.
- **Radio** (`RadioEngine.dfy`, `RadioProofs.dfy`, `RadioDialogue.dfy`). The
  reaction table, the global counters, the table of sent frames, the dialogue
  of one sensor, and, with `VmWrite.dfy`, what a provisioned sensor ends up
  running.
- **Bytecode** (`VmWrite.dfy`). Ops, the flush rule that cuts them in frames,
  the bytes, a parser, and a sensor memory that gives the ops their meaning.
- **Managed frames** (`Managed.dfy`). Varints and optional fields.
- **HomeKit** (`Opack.dfy`, `OpackCodec.dfy`, `Tlv.dfy`, `Hds.dfy`,
  `DataSend.dfy`). The value codec with its back-references against a grammar
  of all its encodings; TLV8; sealed messages, the cipher being any pair of
  functions that opens what it sealed; a packet's chunks and their events.
- **Recordings** (`Prebuffer.dfy`, `Muxer.dfy`). The GOP prebuffer, and the
  fragments of a recording as a player shows them.
- **Video path** (`Multicast.dfy`, `AnnexB.dfy`, `Rtp.dfy`, `MediaPath.dfy`).
- **Registry** (`Registry.dfy`). Ids, addresses, system indexes and masks.

Some properties do not hold of the code on every input. They are stated as they
hold, with the input that breaks them:

- A driver misled by two late reports leaves the siren armed in the old mode
  after a mode switch (`StaleReportsLeaveTheWrongMode`); `ArmTakesExactly` says
  when an arming leaves the mode asked for, `SirenModeExactly` when a siren is
  in the alarm's mode along a run.
- An alarm whose state file could not be written is forgotten by a restart
  (`UnwrittenAlarmIsForgotten`); `CrashKeepsExactly` and
  `CrashGoesBackToTheLastWrite` say what a restart keeps.
- The loss of a config reported after 256 more frames finds nothing, and the
  sensor is taken as configured (`LateLossIsIgnored`,
  `LossUndoesExactlyInTime`).
- A managed frame with a counter of 2^31 or more loses its top bit on the wire
  (`Managed.RoundTripExactly`, `SentFramesSurvive`).
- A duplicated multicast fragment can end a frame early, with a hole
  (`DuplicateLeavesAHole`, `FrameIsRightExactly`).
- A stream id too long for a frame has its events refused (`LongIdIsRefused`,
  `EventFitsExactly`), and its packets cut short (`PacketArrives`).
- A recording with 13 hours between two units, 2^32 ticks, shows what follows too early
  (`LongGapIsLost`, `RecordingIsTheStream`).
- A recording whose parameter sets change before its first fragment is cut has
  the later ones for the units before them too (`InitIsNewest`).
- A NAL that ends in a zero loses it before a three-byte start code
  (`SplitsBackExactly`).
- Two TLV8 values of a type merge when the first fills its chunks
  (`TlvModel.RoundTripExactly`).
- A deletion drops the sensor in one config update and notes its id in another:
  a pairing that ends in between reuses the id, and is then deleted
  (`PairingDuringADeletion`, `NewIdsAreFresh`).

## Model

Methods of the classes that these rows' methods are made of mirror a function
on values in the same way, and have no row.

| member | source | states |
|---|---|---|
| `Siren.SettledDrainsOff` | internal/alarm/sim_test.go:125-151 | a siren with no arming queued after its last disarm is off or in test once the queue is applied |
| `Siren.OnDrainsOn` | internal/alarm/sim_test.go:125-151 | among the states that are on, which one it is does not decide whether the drained siren is on |
| `Siren.StaysOn` | internal/camera/radio.go:827-843 | only a disarm turns off a siren that is on |
| `DriverModel.OffSendsNoArming` | internal/alarm/siren.go:136-181 | while off is wanted no report, retry, entry delay or alert can leave the siren bound to end on |
| `DriverModel.DisarmSettles` | internal/alarm/siren.go:136-142 | a disarm overrides whatever was queued |
| `DriverModel.ReportKeepsArmed` | internal/alarm/siren.go:164-181 | while armed is wanted and a siren is present no report changes a drained siren that is on |
| `DriverModel.RetryKeepsArmed` | internal/alarm/siren.go:101-119 | a retry changes nothing of the drained siren |
| `DriverModel.OffReportRearms` | internal/alarm/siren.go:101-132 | an off report while armed is wanted, true or late, arms a drained siren that is off in the wanted mode and changes no other, or leaves one retry due within the rearm period that asks for the state |
| `DriverModel.ArmTakesExactly` | internal/alarm/siren.go:73-97 | exactly when an arming leaves the drained siren on in the mode asked for |
| `DriverModel.StaleReportsLeaveTheWrongMode` | internal/alarm/siren.go:73-97 | two late reports, then a mode switch: the siren stays in the old mode and no report of it corrects the driver |
| `DriverModel.KnownSirenIsArmed` | internal/alarm/siren.go:73-97 | with a siren last seen as it is, an arming arms it in the mode asked for, or keeps the alarm it is in |
| `SirenDriverClass.SirenDriver.Arm` | internal/alarm/siren.go:73-97 | the fields and the commands sent are those of the driver on values |
| `SirenDriverClass.SirenDriver.Rearm` | internal/alarm/siren.go:101-119 | arms at once, or schedules one retry, and none while one is outstanding |
| `SirenDriverClass.SirenDriver.HandleReport` | internal/alarm/siren.go:164-181 | the reaction to a report, by want, presence, pending arming and state |
| `AlarmModel.SirenCountsFirst` | internal/alarm/engine.go:362-370 | the siren's whole-second count of an entry delay ends before the engine's fallback timer, and covers the delay exactly when that is at most 255 s |
| `AlarmModel.SirenCountsExitFirst` | internal/alarm/engine.go:252-268 | so for the exit delay of an arming from the camera itself |
| `AlarmModel.ForwardTwo` | internal/alarm/engine.go:250-290 | calls reach the driver in the order the engine makes them |
| `AlarmClass.Engine.Save` | internal/alarm/engine.go:456-486 | the file is the engine's state unless closed or not writable, and then is untouched |
| `AlarmClass.Engine.StillInAlarm` | internal/alarm/engine.go:302-310 | whatever order the map is ranged in, one watched sensor in alarm is acted upon if there is any |
| `AlarmClass.Engine.HandleCommand` | internal/alarm/engine.go:242-291 | each command in each state, its calls to the driver included |
| `AlarmClass.Engine.HandleSensorEvent` | internal/alarm/engine.go:314-329 | the report is recorded, and acted upon if the sensor is watched |
| `AlarmClass.Engine.HandleSirenState` | internal/alarm/engine.go:381-393 | the siren's own moves drive the engine forward |
| `AlarmClass.Engine.Fire` | internal/alarm/engine.go:406-415 | a timer of an older generation does nothing |
| `AlarmClass.Engine.Load` | internal/alarm/engine.go:172-216 | what a restart makes of any state file, and the one call it makes |
| `AlarmInvariants.CommandOk` | internal/alarm/engine.go:242-291 | every command keeps the engine in order, told to the siren and stored |
| `AlarmInvariants.SensorEventOk` | internal/alarm/engine.go:314-360 | so does every sensor event |
| `AlarmInvariants.SirenReportOk` | internal/alarm/engine.go:381-393 | so does every siren report |
| `AlarmInvariants.FireOk` | internal/alarm/engine.go:362-415 | so does every timer |
| `AlarmInvariants.RestartOk` | internal/alarm/engine.go:172-216 | a restart from any file gives an engine in order, as the file says |
| `AlarmInvariants.RestartKeepsRank` | internal/alarm/engine.go:172-216 | from an engine's own file it is never behind that engine and keeps its mode |
| `AlarmSystem.InvStep` | internal/alarm/engine.go:242-486 | every step of engine, driver, siren, clock, disk or restart keeps the system's invariant |
| `AlarmSystem.DisarmedSirenEndsOff` | internal/alarm/siren.go:136-181 | on every run the driver wants what the engine's state and mode ask for, and a disarmed alarm's drained siren is off or in test |
| `AlarmSystem.ArmedSirenStaysOn` | internal/alarm/siren.go:73-181 | while the alarm is on no step turns a drained siren that is on off, but its own reboot or a restart |
| `AlarmSystem.SirenModeExactly` | internal/alarm/siren.go:73-97 | over any stretch of a run with the alarm and its drained siren on, the siren is in the alarm's mode exactly when the last change of mode found it so already or had it disarmed first, or, without one, when it was so at first |
| `AlarmSystem.ArmingTakesExactly` | internal/alarm/engine.go:250-272 | arming a disarmed alarm leaves the drained siren on in its mode exactly when the driver disarms it first, or it is off and was last seen off or testing |
| `AlarmSystem.OnlyADisarmLowers` | internal/alarm/engine.go:242-486 | nothing but a disarm lowers the alarm or changes its mode, and a restart does exactly when what was last written is lower or in another mode |
| `AlarmSystem.CrashKeepsExactly` | internal/alarm/engine.go:188-204 | a restart right after a change of state finds the alarm no lower and in its mode exactly when the change could be written, or was the end of an exit delay |
| `AlarmSystem.CrashGoesBackToTheLastWrite` | internal/alarm/engine.go:172-216 | at any point of a run a restart goes back to the state and mode last written, an exit delay being over |
| `AlarmSystem.TriggeredUntilDisarmed` | internal/alarm/engine.go:172-486 | over any run without a disarm a triggered alarm stays so exactly when it was written as such or no restart comes |
| `AlarmSystem.UnwrittenAlarmIsForgotten` | internal/alarm/engine.go:456-486 | an alarm set off with its file unwritten is disarmed by a restart |
| `AlarmSystem.DelaysEnd` | internal/alarm/engine.go:362-446 | exactly one live timer while arming or pending and none else, ending within the margin of the deadline; running it moves the alarm on, running an older one changes nothing |
| `AlarmSystem.NoAlarmForgotten` | internal/alarm/engine.go:295-334 | on every run, in an armed state no watched sensor's last report since the last disarm or restart is in alarm |
| `AlarmSystem.ReportsAreKept` | internal/alarm/engine.go:314-329 | on every run the engine's reports are the last of each sensor since the last disarm or restart, as the run's steps tell them |
| `AlarmSystem.RearmsAreSpaced` | internal/alarm/siren.go:101-119 | the armings sent on a report, but for those that end a delayed one, are at least the rearm period apart, and the retry flag holds exactly while one retry is due |
| `AlarmSystem.OffSirenComesBack` | internal/alarm/siren.go:101-181 | an off report while the alarm is on, true or late, arms a drained siren that is off in the alarm's mode and changes no other, or leaves a state request due within the rearm period |
| `VmOps.FrameRoundTrip` | internal/domusvm/frame.go:17-23 | a frame reads back as its ops, whatever they are |
| `VmOps.CountOps` | internal/radio/engine.go:335-351 | the count of ops stepped over in the bytes |
| `VmOps.CountsWhatIsParsed` | internal/radio/engine.go:335-351 | of any frame a sensor can read, the engine counts the ops |
| `VmFrames.SplitOps` | internal/domusvm/frame.go:27-43 | the frames are the ops in order, each but the last flushed by its own last op and by none before |
| `VmFrames.FlushRuleUnique` | internal/domusvm/frame.go:27-43 | that rule leaves one split of any op stream |
| `VmInstall.BuildInitSequence` | internal/domusvm/coordinator.go:46-71 | the ops that install a bytecode and its dynamic configuration |
| `VmInstall.InitSequenceInstalls` | internal/domusvm/coordinator.go:46-71 | run on any sensor they leave exactly the bytecode from address 0, the registers set and the VM booted |
| `VmInstall.ReceiveFrames` | internal/domusvm/frame.go:17-43 | splitting, encoding and reading back change nothing to what is run |
| `VmInstall.FramesInstall` | internal/domusvm/coordinator.go:46-71 | the encoded frames, read by the sensor, install exactly the bytecode |
| `VmInstall.Frames` | internal/domusvm/coordinator.go:46-71 | the composition of the three steps installs any bytecode, on any sensor |
| `VmInstall.FewOpsAFrame` | internal/domusvm/frame.go:27-43 | a frame holds at most six ops, seven with a dynamic configuration |
| `VmInstall.EngineCountsOps` | internal/radio/engine.go:326-351 | the engine's count of each frame is its ops, so the full mask fits 32 bits |
| `Managed.AppendVarint` | internal/charmux/managed.go:163-170 | the varint of a number is appended |
| `Managed.DecodeVarint` | internal/charmux/managed.go:172-186 | value and length of the varint at the head of any bytes |
| `Managed.VarintRoundTrip` | internal/charmux/managed.go:163-186 | a 32-bit number is read back from its varint, whatever follows |
| `Managed.Serialize` | internal/charmux/managed.go:49-87 | the bytes of a frame |
| `Managed.Deserialize` | internal/charmux/managed.go:90-159 | the frame of any bytes, or the error for short ones |
| `Managed.RoundTrip` | internal/charmux/managed.go:53-159 | such a frame comes back but for its counter's top bit |
| `Managed.RoundTripExactly` | internal/charmux/managed.go:53-159 | any frame comes back as it was exactly when it has eight bytes or more, a counter below 2^31, and carries nothing its flags, hops and route leave out |
| `RadioClass.BuildKeypadCodes` | internal/radio/sensors.go:134-148 | the keypad's list, its digits nibble by nibble, its lengths |
| `RadioClass.Engine.NewFrame` | internal/radio/engine.go:368-375 | a frame takes the counter and enters the table, the one 256 frames older leaves it |
| `RadioClass.Engine.Command` | internal/radio/engine.go:192-198 | a command for a known sensor, else an event |
| `RadioClass.Engine.Receive` | internal/radio/engine.go:202-330 | the whole reaction table, for every frame |
| `RadioClass.Engine.Lost` | internal/radio/engine.go:226-243 | what a reported loss undoes |
| `RadioClass.Engine.SetNode` | internal/radio/engine.go:139-154 | a keypad code refused changes nothing; new settings are told again |
| `RadioHistory.InvStep` | internal/radio/engine.go:139-375 | every operation keeps the engine in step with the log of what it sent and of what was reported lost, as the operations tell it |
| `RadioHistory.ConfigSentIsTrue` | internal/radio/engine.go:299-313 | a sensor taken as configured was last sent the config it would get now, whose loss was reported more than 256 frames later, if at all |
| `RadioHistory.LossUndoesExactlyInTime` | internal/radio/engine.go:226-243 | the loss of a config reported marks its sensor for another exactly when at most 256 frames were sent from it on |
| `RadioHistory.LateLossIsIgnored` | internal/radio/engine.go:226-243 | a run on which a config is reported lost after 256 more frames and its sensor is taken as configured all the same |
| `RadioHistory.ReportFinds` | internal/radio/engine.go:226-231 | what a report finds in the table, from the log alone |
| `RadioHistory.SentTableIsRecent` | internal/radio/engine.go:368-375 | on every run the table holds exactly the newest frames of each counter, among the last 256, not reported lost, each with its address |
| `RadioHistory.LostBlamesOnce` | internal/radio/engine.go:226-243 | a loss is blamed once, on the address its frame went to, and not at all after 256 frames |
| `RadioHistory.OneAnswerEach` | internal/radio/engine.go:202-221 | a Z frame of a paired sensor gets exactly one frame, acknowledging its source and counter; no other frame gets any |
| `RadioHistory.CountersAreConsecutive` | internal/radio/engine.go:368-375 | outgoing counters follow each other modulo 2^32 on every run |
| `RadioHistory.SentFramesSurvive` | internal/charmux/managed.go:53-159 | a frame sent survives the wire exactly while its counter is below 2^31 and, for a command, its address is not 0 |
| `RadioDialogue.EngineReplies` | internal/radio/engine.go:247-330 | what the engine answers a sensor, and the sensor's dialogue after it, are that sensor's reaction alone |
| `RadioDialogue.OtherOps` | internal/radio/engine.go:139-375 | any other operation only loses a reply of a sensor or changes its settings, and sends it no dialogue frame |
| `RadioDialogue.BytecodeGoesInOrder` | internal/radio/engine.go:247-330 | on any run, other sensors and commands in between, the frames a sensor is sent from a fetch on are a prefix of the fetched ones, each after a full acknowledgement of the one before, the config only after the last |
| `RadioDialogue.CooperatingSensorRests` | internal/radio/engine.go:247-330 | on any run, whatever comes in between for others, a cooperating sensor is brought to rest by exactly two replies, one more per frame and one for the time if asked |
| `RadioDialogue.ProvisioningInstalls` | internal/radio/engine.go:247-330 | on any run, a sensor that lost its bytecode ends up running exactly the one fetched, and has its config |
| `OpackValues.LeafBack` | internal/hksv/opack.go:134-255 | any form of a primitive is read back, whatever follows |
| `OpackValues.LeafForth` | internal/hksv/opack.go:134-255 | what is read as a primitive is one of its forms |
| `OpackDecoder.DecodeBack` | internal/hksv/opack.go:134-255 | every encoding of a value, back-references included, decodes to it, its rest and what it tracked |
| `OpackDecoder.DecodesExactlyTheGrammar` | internal/hksv/opack.go:134-255 | and nothing else decodes |
| `OpackEncoder.EncodeIsCode` | internal/hksv/opack.go:17-109 | the encoder writes one of a value's encodings |
| `OpackEncoder.RoundTrip` | internal/hksv/opack.go:17-255 | what is encoded decodes back, whatever follows and whatever was tracked |
| `OpackEncoder.PrefixFree` | internal/hksv/opack.go:17-109 | no value is written as the start of another |
| `OpackClass.Decoder.ReadValue` | internal/hksv/opack.go:134-255 | the decoder that consumes its bytes and grows its list does what the function says, on every byte string |
| `OpackClass.DecodeDict` | internal/hksv/opack.go:275-286 | a dictionary and what follows it, else an error |
| `TlvModel.RoundTripExactly` | internal/hksv/tlv.go:20-67 | encoded items always decode, and to themselves exactly when none that fills its chunks is followed by its type and none of type 0 is over 255 bytes |
| `TlvModel.ListsRoundTrip` | internal/hksv/tlv.go:39-48 | a list of any values of a non-zero type decodes back to them |
| `TlvModel.ChunksDecode` | internal/hksv/tlv.go:52-67 | a value's chunks are read one by one, whatever follows |
| `TlvModel.FedTogether` | internal/hksv/tlv.go:52-67 | the chunks of a non-zero type come together again |
| `TlvModel.FedApart` | internal/hksv/tlv.go:52-67 | those of type 0 do not |
| `TlvCodec.EncodeItems` | internal/hksv/tlv.go:20-35 | the bytes of some items |
| `TlvCodec.DecodeItems` | internal/hksv/tlv.go:52-67 | the items of any bytes, or the error for truncated ones |
| `TlvCodec.MakeList` | internal/hksv/tlv.go:39-48 | the items of a list, separators between them |
| `HdsModel.NoncesDiffer` | internal/hksv/hds.go:235-239 | no nonce comes twice while the 64-bit counter lasts |
| `HdsModel.FrameTaken` | internal/hksv/hds.go:216-233 | a frame is read whole, whatever follows |
| `HdsModel.PayloadDecodes` | internal/hksv/hds.go:251-266 | header and body of a message sent are read back |
| `HdsModel.StreamReadsBack` | internal/hksv/hds.go:241-312 | of any plaintexts handed over those not refused are read back in order, nonces in step |
| `HdsModel.WireGrows` | internal/hksv/hds.go:283-312 | handing over one more adds its frame under the next nonce, or nothing |
| `HdsModel.MessagesReadBack` | internal/hksv/hds.go:251-312 | of any messages those sent are read back with their headers and bodies, in order |
| `HdsMatch.DataStream.Match` | internal/hksv/hds.go:181-201 | the first session in time whose key opens the first frame is taken out, with those found late before it |
| `HdsMatch.KeptAreTimely` | internal/hksv/hds.go:187-190 | of the sessions tried, exactly those in time stay pending |
| `HdsMatch.StreamFindsItsSession` | internal/hksv/hds.go:181-201 | a stream sealed under a session no earlier one opens goes to it, and is read on from the nonce after |
| `HdsClass.Conn.Send` | internal/hksv/hds.go:283-312 | a frame is written and a nonce taken, or neither |
| `HdsClass.Conn.Read` | internal/hksv/hds.go:269-280 | the next message; the nonce advances exactly when the frame opens |
| `DataSend.SendPacket` | internal/hksv/datasend.go:196-224 | the chunks sent are the packet's, up to the first whose event has no room in a frame; an error exactly when there is one or the packet is empty |
| `DataSend.ChunksMakeUp` | internal/hksv/datasend.go:196-224 | a packet's chunks make up its data, numbered from 1, full but the last, the first with the size, the last marked |
| `DataSend.PacketArrives` | internal/hksv/datasend.go:196-224 | the hub reads the events before the first without room, in order, and no other, and has the packet's whole data exactly when every chunk has room |
| `DataSend.EventFitsExactly` | internal/hksv/datasend.go:205-219 | an event of a chunk is sent exactly when the encoded stream id and the rest, a sum given outright, fit a frame |
| `DataSend.NumberedEventsFit` | internal/hksv/datasend.go:205-219 | with the protocol's words and a numeric stream id every event fits |
| `DataSend.LongIdIsRefused` | internal/hksv/datasend.go:205-219 | with a stream id of 800000 bytes a full chunk's event is refused |
| `PrebufferModel.RunSound` | internal/hksv/prebuffer.go:43-102 | on every run the buffer weighs at most 8 MiB and is the newest samples, whole GOPs, none needless |
| `PrebufferModel.IdealExactlyWithinCap` | internal/hksv/prebuffer.go:43-102 | video in order, it is the shortest run of GOPs covering keep, or all of them, throughout a run exactly when that fits the cap throughout |
| `PrebufferModel.GopsAreTheHistory` | internal/hksv/prebuffer.go:43-70 | the GOPs of a history hold every sample from the first that can open one |
| `PrebufferModel.TrimStops` | internal/hksv/prebuffer.go:74-85 | dropping while the second GOP covers keep ends at the shortest run that does |
| `PrebufferClass.OffsetsGoUp` | internal/hksv/prebuffer.go:29-36 | the starts go up from 0, each where a GOP opens |
| `PrebufferClass.Prebuffer.Add` | internal/hksv/prebuffer.go:57-70 | samples, starts and size stay those of the GOPs on values |
| `PrebufferClass.Prebuffer.Trim` | internal/hksv/prebuffer.go:74-85 | drops GOPs, or everything when one alone is over the cap |
| `MuxerTimeline.FragmentPlaysExactly` | internal/hksv/fmp4.go:224-246 | a fragment plays the units it was cut from, each at its own PTS, up to the end it was given, exactly when each is followed later, by less than 2^32 ticks |
| `MuxerTimeline.FilmPlaysExactly` | internal/hksv/fmp4.go:172-246 | so for a film of fragments, which then tile the timeline from 0 and are as long as the target |
| `MuxerTimeline.PushReel` | internal/hksv/fmp4.go:119-138 | filing a unit keeps film and pending units what was recorded, and cuts on IDRs the target apart |
| `MuxerHistory.RunInStep` | internal/hksv/fmp4.go:71-106 | after any samples at all the muxer holds what the stream grouped by PTS says, and no unit recorded is missing from film or pending |
| `MuxerHistory.RecordingIsTheStream` | internal/hksv/fmp4.go:71-246 | a flushed recording plays every access unit from the first IDR with its parameter sets on, once, in order, at its time, in tiling fragments that start on an IDR and last the target, but the last, exactly when each is later than the one before by less than 2^32 ticks |
| `MuxerHistory.InOrderIsSteady` | internal/hksv/fmp4.go:224-246 | for video that never goes back, only a gap of 2^32 ticks between two units recorded can break that |
| `MuxerHistory.LongGapIsLost` | internal/hksv/fmp4.go:234-242 | two IDRs that far apart are not played at their times |
| `MuxerHistory.InitIsNewest` | internal/hksv/fmp4.go:172-213 | a recording begins with an init segment, whose parameter sets are the newest of the stream when the first fragment was cut |
| `MuxerAudio.RunAudio` | internal/hksv/fmp4.go:251-277 | after any samples the audio heard is what was dropped, sent and pending |
| `MuxerAudio.AudioIsKept` | internal/hksv/fmp4.go:108-277 | whatever the video, audio is sent in order and without hole from the first unit not before the start, 1024 ticks a unit |
| `MuxerClass.Muxer.Write` | internal/hksv/fmp4.go:71-89 | the fields and the segments returned are those of the muxer on values |
| `MuxerClass.Muxer.Flush` | internal/hksv/fmp4.go:141-156 | the current unit is filed and the rest cut |
| `MuxerClass.Muxer.Cut` | internal/hksv/fmp4.go:172-197 | the segments of a cut and the fields after it |
| `Multicast.Parse` | internal/camera/multicast.go:40-56 | a fragment parsed lies within its frame |
| `MulticastProofs.ParsesBack` | internal/camera/multicast.go:21-56 | a fragment's packet parses back to it |
| `MulticastProofs.PartsAssemble` | internal/camera/multicast.go:60-84 | of any fragments of one frame, overlapping or not, nothing comes out until their bytes reach the total, then the frame filled where they cover it |
| `MulticastProofs.FrameIsRightExactly` | internal/camera/multicast.go:60-84 | what comes out is the frame exactly when it is 0 wherever no fragment covers it |
| `MulticastProofs.ApartAssembles` | internal/camera/multicast.go:60-84 | so it is when no two of these fragments overlap |
| `Multicast.Assembler.Add` | internal/camera/multicast.go:70-84 | the buffer updated in place, a frame returned once complete |
| `MulticastProofs.AnyOrderAssembles` | internal/camera/multicast.go:70-84 | in particular, disjoint fragments that cover a frame give it, in any order, at the last and not before |
| `MulticastProofs.DuplicateLeavesAHole` | internal/camera/multicast.go:78-83 | a repeated fragment can return a frame with a hole |
| `AnnexB.SplitNals` | internal/camera/sample.go:19-71 | the NALs of any bytes, by two loops |
| `AnnexB.FindStarts` | internal/camera/sample.go:22-43 | every start code, each sought past the one before |
| `AnnexBProofs.SplitIsClean` | internal/camera/sample.go:49-71 | of any bytes, the NALs found are non-empty and hold no start code |
| `AnnexBProofs.SplitsBackExactly` | internal/camera/sample.go:19-71 | a byte stream splits back into its NALs exactly when none is empty, holds a start code or ends in a zero before a three-byte one |
| `RtpModel.FuShape` | internal/publisher/h264rtp.go:180-216 | a fragment fits 1378 bytes, carries the NAL's header bits, and never both marks |
| `RtpModel.NalArrives` | internal/publisher/h264rtp.go:168-218 | a receiver of RFC 6184 gets a NAL back whole from its payloads |
| `RtpModel.SentArrives` | internal/publisher/h264rtp.go:124-160 | and before an IDR the parameter sets known |
| `RtpModel.LoadsFit` | internal/publisher/h264rtp.go:168-218 | no payload is empty or over 1378 bytes |
| `RtpModel.LaterIsModular` | internal/publisher/h264rtp.go:222-236 | sequence numbers go up by one modulo 2^16 |
| `RtpClass.Packetizer.Packetize` | internal/publisher/h264rtp.go:124-160 | consecutive packets, the marker on the last only, the parameter sets kept |
| `RtpClass.Packetizer.Fragment` | internal/publisher/h264rtp.go:180-217 | the fragmentation loop |
| `MediaPath.FrameReachesTheViewer` | internal/publisher/h264rtp.go:124-218 | a frame in fragments in any order reaches a receiver NAL by NAL |
| `RegistryRuns.InvStep` | internal/camera/radio.go:628-769 | every reservation, pairing, deletion or change of settings keeps ids, addresses and indexes distinct, indexes below 64, and reserved addresses in order |
| `RegistryRuns.InvRun` | internal/camera/radio.go:628-769 | so on every run from a sound config |
| `RegistryRuns.NewIdsAreFresh` | internal/camera/radio.go:707-716 | on every run, a new id was listed before exactly when its own deletion is half done |
| `RegistryRuns.PairingDuringADeletion` | internal/web/server.go:572-599 | a pairing between the two updates of a deletion reuses the id and is lost |
| `RegistryRuns.AdoptSound` | internal/camera/radio.go:652-692 | a pairing takes the address from whoever had it and keeps the index of a sensor paired again |
| `RegistryModel.NextAddr` | internal/camera/radio.go:628-647 | above every address listed or reserved, at least 2, not the gateway's |
| `RegistryModel.FreeFrom` | internal/camera/radio.go:720-729 | the lowest index no served sensor has, or none |
| `RegistryMask.Mask` | internal/camera/radio.go:902-910 | one bit per system index of the sensors served |
| `RegistryMask.MasksOrderAsSets` | internal/camera/radio.go:902-910 | masks are equal, or one within the other, exactly when their sets of served sensors are |
| `RegistryClass.Registry.ReserveAddr` | internal/camera/radio.go:628-647 | the address, saved as taken even when there is none left |
| `RegistryClass.Registry.AdoptPaired` | internal/camera/radio.go:652-692 | the registry after a pairing, and the sensor's id |
| `RegistryClass.Registry.FreeIndex` | internal/camera/radio.go:720-729 | the search over 64 indexes |
| `RegistryClass.Registry.ForgetSensor` | internal/web/server.go:584-599 | the first entry of the id goes, and the id is noted once |

## Left out

- RadioHistory.LossUndoesExactlyInTime: holds for the newest frame of its counter; after 2^32 frames an older one with the same counter is not blamed.
- Failed radio sends: a command of the driver reaches the radio, and the siren, in order; logs and change callbacks have no effect here.
- The siren test and stop commands of the UI, which bypass the driver.
- Timers run exactly when due or later but before anything due after them: the clock does not pass a timer that is due.
- Sensor settings (night allowed, instant) do not change during a run of the alarm.
- The alarm's state file is modelled after its parsing: known states, or unknown ones.
- The decoding of sensor reports into events (internal/radio/sensors.go:64-103): no state, easier than the reaction table.
- Firmware hashes, the update manifest and the bytecode files: the bytecode fetched is a parameter.
- The widening of 32-bit floats to 64 bits in the value codec is kept symbolic.
- The encoder walks a Go map through its sorted keys: `OpackEncoder.Encode` is ghost, as the order on keys is; `HdsClass.Conn.Send` takes encoded parts.
- HdsMatch.StreamFindsItsSession: supposes that no earlier session's key opens the frame, which is the cipher's business.
- Real ciphers and key derivation.
- Marshalling of fMP4 and AVCC, and the AAC encoder: segments are records, and what the encoder completes with each sample is a parameter. Base times are unbounded integers, negative only in a recording that goes back in time.
- PTS and sizes are unbounded integers where the source's 64 bits are never reached; multicast byte counts, durations, counters and sequence numbers wrap as in the source.
- RTP's header fields other than number, timestamp, source, type and marker.
- Registry: addresses and ids are unbounded; hardware ids compare by equality, upper and lower case folded before; the import from fbxhome.xml, and a config update that fails and changes nothing.
- The siren's out-of-order filter (internal/camera/radio.go:358-368), reachability, batteries, the shutter, the pairing radio protocol.
- Sockets, HTTP, MQTT, mDNS, RTSP, HLS, the web UI, OTA, JSON and XML parsing, goroutines: each method under its lock is one step.
