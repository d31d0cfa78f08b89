# A verified model of the roller coaster controller

A roller coaster runs on a ring of four blocks: station, lift hill, ride, pre-station. Each block has two beam
sensors at its end. A Raspberry Pi runs one monitor thread per block, which turns sensor edges and quiet polls into
EMPTY, ENTERING or ENTERED, and one control thread, which copies the four states, asks the mode, and sends commands
for two motors and two gravity brakes over a serial line. An Arduino reads the operator's switches, owns the mode
latches, parses the frames and drives the pins.

The model covers all of that, and then closes the loop: trains, kernel edge queues, monitors, the control thread and
the commands on their way to the firmware interleave one small step at a time, and block safety, brake re-arming, the
truth of snapshots and freedom from gridlock are proved over every run.

| module | file | what it holds |
|---|---|---|
| `Coaster` | Coaster.dfy | zones, codes, messages, actuators; commands are latched |
| `EdgeEvents` | EdgeEvents.dfy | the in-place conversion of one read of kernel records |
| `BrakeZones` | BrakeZones.dfy | the occupancy machine of a zone, as a class and as a function over poll histories |
| `Interlock`, `InterlockRuns` | Interlock.dfy, InterlockRuns.dfy | what one control cycle decides, and what holds over runs of cycles |
| `SerialLink` | SerialLink.dfy | the encoders and the two replies |
| `Controllers` | Controller.dfy | the control thread as a class: its loop is proved equal to the functions of `Interlock` |
| `Firmware`, `FirmwareTraces`, `FirmwarePins` | Firmware.dfy, FirmwareTraces.dfy, FirmwarePins.dfy | latches, frame collector, dispatch and pins; traces of them; where they leave the pins |
| `Arduinos` | Arduino.dfy | the firmware as a class: its loop is proved equal to the functions of `Firmware` |
| `LinkRefinement` | LinkRefinement.dfy | Pi to pins and back |
| `JointRuns`, `EstopWitness` | JointRuns.dfy, EstopWitness.dfy | both processors over whole runs: answers in order, however late, mode agreement, the emergency stop down to the pins, and a run in which it leaves a motor on |
| `JointStarts` | JointStarts.dfy | starts in MANUAL, from the button to the motor |
| `Snapshots` | Snapshots.dfy | the branches, one `getState` call at a time, amid monitor writes |
| `ClosedLoop`, `BlockSafety` | ClosedLoop.dfy, BlockSafety.dfy | the whole system in motion, commands in transit included, its invariant, block safety |
| `Rearming` | Rearming.dfy | brake re-arm |
| `Sampling`, `MissedTrains` | Sampling.dfy, MissedTrains.dfy | which trains a snapshot shows, and exactly when it misses one |
| `Progress`, `Stranded`, `FairRun` | Progress.dfy, Stranded.dfy, FairRun.dfy | no gridlock in fair runs, exactly when, and fair runs |
| `Scripts`, `Witnesses`, `Necessity` | Scripts.dfy, Witnesses.dfy, Necessity.dfy | concrete runs: snapshots that miss a train, a start with a train nobody recorded, and collisions after one broken hypothesis |

## Hypotheses of the closed loop

Each is a named predicate; everything not excluded by one may happen at any moment. In particular a command may take
as long as it likes to reach the firmware, and the commands of any number of cycles may be on their way at once.

- `ClosedLoop.ConsistentStart`: recorded zone states agree with where the trains are, at most one train a zone. The
  program starts every zone EMPTY, which is this state for a ring without trains; `Witnesses.UnrecordedTrainIsHit`
  shows what becomes of a train that was not recorded.
- `ClosedLoop.Handover`: a zone is not timed out while the train that left it has not reached the next zone, or
  its arrival there has not been read. `Necessity.WithoutHandover`
  and `Necessity.WithoutHearingAhead` show two trains in one zone after one such time-out of either kind.
- `ClosedLoop.FastController`: a train that has come to stand on a second sensor does not leave before a control cycle
  has seen it and all commands of that cycle have been obeyed. `Necessity.WithoutFastController` shows two trains in one zone after one that does.
- `ClosedLoop.CommandingMode`: no MAINTENANCE, where the firmware opens both brakes, and no mode number the firmware
  does not have.
- `InterlockRuns.WholeReplies`: a mode reply arrives whole or not at all. Needed only for mode agreement on the Pi's
  side. In `JointRuns` each answer of the firmware arrives whole, but as late as it likes.
- `Progress.Fair`: cycles keep finishing; the firmware keeps obeying what is pending; monitors keep polling, except that one whose next poll `Handover` rules out
  may wait; a train that is driven or free without a break moves in the end; if the Pi asks for a start again and
  again for ever, a start is granted again and again. None of this depends on how a run began, and any single request
  may be in vain.
- `Progress.WorksFrom`: from some moment on, no failed reads, `select` times out only with an empty queue, no first
  sensor falls behind a train that has left while its zone is still shown occupied, and the mode the Pi acts on is
  AUTOMATIC or MANUAL, in any alternation; and at that moment no zone is stranded by such a fall. Before it the run
  may go through failures and any modes but MAINTENANCE. `FairRun.FairExecutionExists` gives runs of one, two and three
  trains, in AUTOMATIC and in MANUAL, that meet all of this, and `Stranded.GridlockExactly` shows that the last part cannot be dropped.

## What came out

- A reply of one byte is misread. The Pi looks at its own request buffer for the missing byte, so a cut mode reply
  always means AUTOMATIC and a cut start reply always means a press (`TruncatedModeReply`, `TruncatedStartReply` give
  the exact condition).
- In MANUAL one press can drive out two trains when no cycle sees the first one leave while the hill is occupied
  (`ReleaseCanCarry`); under that timing condition it cannot. `OwnPressExactly` says exactly which runs are sound, and
  `CarriesExactly` exactly which departures a release outlives.
- A single first-sensor edge behind a train that has left strands its zone in ENTERED for good
  (`WaitingVacates` in general, `LateEdgeStrands` for one history), and one stranded zone stops the whole ring:
  in a fair run whose sensors work from some moment on, trains keep crossing for ever if and only if there are one to
  three of them and no zone is stranded at that moment (`GridlockExactly`).
- The four zones are copied one by one, and a snapshot can show four EMPTY zones with a train on the lift hill.
  `MissedExactly` is the exact condition: the hill is shown EMPTY and the station was timed out between the two copies.
  Without such a slip each train is shown by a zone of its own (`EveryTrainIsCounted`). `QuickSnapshotShowsAll` is what
  can be seen from outside: no arrival unread on the hill and no train in the gap behind the station when the copying
  begins, and fewer than 500 quiet station polls until it is over. None of the three can be dropped
  (`UnreadArrivalIsMissed`, `TrainInTheGapIsMissed`, `LongCopyingMisses`).
- With answers arriving whole, a press the Pi hears was always made: only an answer to a start request, given in MANUAL
  with the button read pressed, counts as one (`StartHeardExactly`). So no train is driven out without one
  (`DriveOutNeedsButton`), nor, under the timing condition above, more trains than such answers were given
  (`ButtonsBoundDispatches`). The answer may be old: one that comes after the Pi has stopped waiting is taken for the
  answer to its next question, and dropped if that was a poll.
- A mode answer that comes after the Pi has stopped waiting is taken for the answer to the next poll
  (`LateAnswerFirst`), so the Pi may go on acting on an older mode. It is never older than the last wait that left no
  answer in transit (`JointModeAgreement`).
- Payload value 125 is the end byte of a frame. A power or position of 125 still arrives: `MessageGetsThrough` holds
  for all messages.
- The firmware answers mode polls but drops every other frame in MAINTENANCE; a start button overrides the stop
  buttons there (`MaintenancePins`). It hangs exactly when a start byte is followed by fewer than six bytes, none of
  them an end byte (`CollectorIsBounded`).
- An emergency stop stops both motors if the return to safe is not latched (`EstopStopsTheMotors`). If it is, the
  firmware reports RETURN_TO_SAFE, in which a hill shown ENTERING gets no command, and
  `EstopCanLeaveTheHillRunning` is a run from power-on that ends with ESTOP held for a whole cycle, every byte read,
  and the hill motor at 255. `SafeMotorsExactly` is the exact condition: the station motor is off if and only if the
  last snapshot does not show the station ENTERING, the hill motor if and only if some cycle since the Pi first heard
  the firmware saw the hill not ENTERING, or it was off before.

## Model

| member | source | states |
|---|---|---|
| Coaster.LastCommandWins | Pi/serial.cpp:129-220 | over any list of commands each actuator ends at the value of the last command addressed to it, or unchanged if there was none |
| EdgeEvents.ReadFd | Pi/edge-event.c:166-212 | for every buffer, request size and byte count: the return value, exactly that many converted records in order, each with its line, time and two sequence numbers kept and its edge inverted, zeroed entries beyond, `num_events` untouched on failure |
| BrakeZones.BatchesRunTheStream | Pi/brakeZone.cpp:66-118 | any non-empty series of batches acts as its concatenation, with the quiet count reset |
| BrakeZones.BatchingDoesNotMatter | Pi/brakeZone.cpp:66-118 | any two splits of one event stream leave the same state, flag and quiet count |
| BrakeZones.HistoryExplainsState | Pi/brakeZone.cpp:51-118 | the quiet count is the length of the quiet tail of the history; in an ENTERED zone the flag is set exactly if the latest edge was a second-sensor fall |
| BrakeZones.VacancyByHistory | Pi/brakeZone.cpp:51-65 | a zone goes from ENTERED to EMPTY exactly on a poll that completes 500 or more quiet ones when the latest edge on its lines was a second-sensor fall |
| BrakeZones.StandingTrainIsNeverTimedOut | Pi/brakeZone.cpp:51-65 | while the latest second-sensor edge is a rise, no number of quiet polls empties the zone |
| BrakeZones.WaitingVacates | Pi/brakeZone.cpp:51-87 | waiting empties an ENTERED zone if and only if its latest edge was the exit |
| BrakeZones.LateEdgeStrands | Pi/brakeZone.cpp:51-87 | after a whole passage 500 quiet polls empty the zone; with one more first-sensor edge no number of them does |
| BrakeZones.CallRunsRecords | Pi/brakeZone.cpp:41-118 | what a call of the monitor does, in what `select` returned and the raw kernel records: a quiet poll if it timed out or failed, else the records in order with the quiet count at 0, none if the read failed |
| BrakeZones.VacancyByCalls | Pi/brakeZone.cpp:41-68 | over any calls of the monitor from power-up, whatever `select` and `read` return: an ENTERED zone becomes EMPTY exactly at a call that completes 500 or more in a row whose `select` timed out or failed, when the latest record read on its lines was the exit line going high |
| BrakeZones.OccupancyByCall | Pi/brakeZone.cpp:66-118 | in one call, an EMPTY zone is opened exactly if the call brings its entry line going low, an ENTERING one completed exactly if it brings its exit line going low, and an ENTERED one left only if `select` brings nothing |
| BrakeZones.MovesOnlyAlongTheCycle | Pi/brakeZone.cpp:51-118 | over every history the state only moves EMPTY, ENTERING, ENTERED, EMPTY, one step at a time, between single events too |
| BrakeZones.CountedInOnceCountedOutOnce | Pi/brakeZone.cpp:51-118 | entries minus exits is 1 while the zone is occupied and 0 while it is EMPTY |
| BrakeZones.ConversionSwapsPolarity | Pi/edge-event.c:198-209 | converting a batch and running the zone on it equals running, on the raw records, the zone with both polarities swapped |
| BrakeZones.BrakeZone.constructor | Pi/brakeZone.cpp:5-12 | both copies of the state as given, count and flag zero |
| BrakeZones.BrakeZone.HandleEvent | Pi/brakeZone.cpp:75-117 | one event changes the fields as the line-event machine does |
| BrakeZones.BrakeZone.HandleBatch | Pi/brakeZone.cpp:75-118 | the loop over a batch equals the machine run over its events in order |
| BrakeZones.BrakeZone.UpdateInternalState | Pi/brakeZone.cpp:41-119 | one monitor call equals one poll of the machine and extends the history by it, for every result of `select` and `read`: the count goes up by one if `select` timed out or failed and back to 0 otherwise, an ENTERED zone empties exactly if that makes 500 with the flag set, a failed read changes neither state nor flag; `state` is untouched |
| BrakeZones.BrakeZone.UpdateState | Pi/brakeZone.cpp:121-128 | the control copy becomes what the monitor last stored, nothing else changes |
| BrakeZones.BrakeZone.GetState | Pi/brakeZone.cpp:130-136 | returns the copy, not the live state |
| Interlock.TruncatedModeReply | Pi/serial.cpp:64-97 | a cut mode reply is heard right if and only if it was not cut after one byte or the mode was AUTOMATIC; cut after one byte it always reads AUTOMATIC |
| Interlock.TruncatedStartReply | Pi/serial.cpp:114-127 | a start reply cut after one byte always counts as a press; it is heard right if and only if it was not, or the button was pressed |
| Interlock.ActuatorsObeyTheLog | Pi/controller.c:168-446 | the actuators after a run of cycles are those the whole log of sent messages leaves |
| InterlockRuns.CycleEffect | Pi/controller.c:189-444 | where one pass leaves each of the four actuators, in every mode and from every earlier position, branches that send nothing included |
| InterlockRuns.BrakeAuthority | Pi/controller.c:238-270 | from closed servos, a brake stands at GO after a run if and only if some cycle saw its zone ENTERED and the next EMPTY in AUTOMATIC or MANUAL and no later cycle sent that servo anything; otherwise it stands at STOP |
| InterlockRuns.BrakesExclude | Pi/controller.c:331-363 | no run, in whatever modes, ends with both gravity brakes at GO |
| InterlockRuns.ModeAgreement | Pi/controller.c:175-179 | the Pi's half: over any replies, whole or missing, its mode is what the latest reply says, or the first mode if none came |
| InterlockRuns.StopResponse | Pi/controller.c:368-374 | from the first STOP answer, while polls bring STOP or nothing, both motor powers are 0 after every cycle and no release is kept |
| InterlockRuns.SilentStart | Pi/controller.c:24-25 | from start-up until the firmware is first heard, whatever the zones show, the mode is STOP, no start is granted, both motors are off after every cycle and closed brakes stay closed |
| InterlockRuns.ReleaseByHistory | Pi/controller.c:271-329 | a release is in force if and only if some cycle heard a press and no later one cleared it |
| InterlockRuns.ReleaseNeverCarries | Pi/controller.c:312-328 | if each departure is seen with the hill occupied, no release is in force while the station is not ENTERED |
| InterlockRuns.OnePressOneDispatch | Pi/controller.c:271-329 | every cycle that drives a train out in MANUAL rests on a press heard during that train's own stay |
| InterlockRuns.OnePressAtMostOneDispatch | Pi/controller.c:271-329 | counted over a run, trains driven out never outnumber presses heard |
| InterlockRuns.OwnPressExactly | Pi/controller.c:271-329 | over every run: all trains driven out in MANUAL rest on a press of their own stay if and only if no press still in force at a later dispatch has seen its train's stay end |
| InterlockRuns.CarriesExactly | Pi/controller.c:312-328 | at a departure the release stays in force if and only if an uncleared press granted it and the next cycle is not in STOP |
| InterlockRuns.ReleaseCanCarry | Pi/controller.c:301-328 | without that timing a concrete run drives out a second train on the first one's press |
| SerialLink.EncodeAllAppend | Pi/serial.cpp:41-62 | the bytes of two lists of messages sent in turn are those of the joined list |
| SerialLink.OnlyForward | Pi/serial.cpp:129-165 | a payload carries a direction byte exactly if it drives a motor, and then the third byte is FORWARD |
| SerialLink.Serial.SendPacket | Pi/serial.cpp:41-62 | appends start byte, payload and end byte to the wire, nothing else |
| SerialLink.Serial.RecvPacket | Pi/serial.cpp:64-83 | whatever arrives overwrites the front of the buffer; the rest keeps what the caller put there |
| SerialLink.Serial.UpdateCoasterState | Pi/serial.cpp:85-97 | sends one poll and returns the second byte of an answer to a poll, 0 if only its first byte came, and 255 for anything else |
| SerialLink.Serial.SendCanSend | Pi/serial.cpp:114-127 | sends one start request and returns the second byte of an answer to a start request, its own argument if only the first byte came, and 0 for anything else, a late mode answer included |
| SerialLink.Serial.LiftHillForward | Pi/serial.cpp:129-136 | the wire grows by exactly the frame of that command |
| SerialLink.Serial.LiftHillStop | Pi/serial.cpp:148-155 | the wire grows by exactly the frame of that command |
| SerialLink.Serial.StationForward | Pi/serial.cpp:157-165 | the wire grows by exactly the frame of that command |
| SerialLink.Serial.StopStation | Pi/serial.cpp:177-184 | the wire grows by exactly the frame of that command |
| SerialLink.Serial.ReleasePreStation | Pi/serial.cpp:186-193 | the wire grows by exactly the frame of that command |
| SerialLink.Serial.StopPreStation | Pi/serial.cpp:195-202 | the wire grows by exactly the frame of that command |
| SerialLink.Serial.ReleaseRide | Pi/serial.cpp:204-211 | the wire grows by exactly the frame of that command |
| SerialLink.Serial.StopRide | Pi/serial.cpp:213-220 | the wire grows by exactly the frame of that command |
| Controllers.Controller.UpdateBrakeZoneState | Pi/controller.c:160-166 | afterwards each zone's copy is what its monitor shows |
| Controllers.Controller.ControlCycle | Pi/controller.c:172-444 | one turn of the loop, in place: mode, release and bytes sent are those of the decision on the copied states and the two replies, in every mode |
| Controllers.Controller.RunMonitor | Pi/controller.c:128-158 | a monitor thread's call changes its own zone as one poll does, and no copy |
| Controllers.Controller.TakeTurn | Pi/controller.c:128-173 | any monitor calls and then a cycle, which acts on the states those calls left |
| Controllers.Controller.ControlRollerCoaster | Pi/controller.c:168-446 | the loop over any number of turns leaves the memory, the whole log of messages and the monitors that the functions give for the cycles it met |
| FirmwareTraces.EstopLatchByHistory | AtMega/arduinoSerialRead/arduinoSerialRead.ino:224-283 | from power-on the stop latch is set if and only if a stop was raised and no reset came since |
| FirmwareTraces.SafeLatchByHistory | AtMega/arduinoSerialRead/arduinoSerialRead.ino:184-283 | the return to safe is latched if and only if nobody has acknowledged since power-on or since it was last called for |
| FirmwareTraces.EstopNeedsReset | AtMega/arduinoSerialRead/arduinoSerialRead.ino:254-283 | after ESTOP high for a whole iteration, any operating mode has a reset in between, in STOP with ESTOP low |
| FirmwareTraces.IgnitionNeedsAcknowledge | AtMega/arduinoSerialRead/arduinoSerialRead.ino:184-209 | after the ignition was off for a whole iteration, any operating mode has an acknowledge in between, with the ignition on |
| FirmwareTraces.AcknowledgeBeforeReset | AtMega/arduinoSerialRead/arduinoSerialRead.ino:557-594 | when both faults hit one iteration, the acknowledge comes before the reset |
| FirmwareTraces.PowerOnNeedsAcknowledge | AtMega/arduinoSerialRead/arduinoSerialRead.ino:254-259 | no operating mode after power-on without an acknowledge |
| FirmwareTraces.ModeByHistory | AtMega/arduinoSerialRead/arduinoSerialRead.ino:254-283 | the mode of every iteration from power-on, one if-and-only-if for each of the five, by what was raised and not yet acknowledged or reset before and by the ignition, ESTOP and two mode switches now |
| FirmwareTraces.CollectorIsBounded | AtMega/arduinoSerialRead/arduinoSerialRead.ino:344-374 | on any bytes the collector takes at most six after a start byte, stores only those and stops at the first end byte; it waits for ever if and only if fewer than six follow a start byte, none an end byte |
| FirmwareTraces.FramingRoundTrip | AtMega/arduinoSerialRead/arduinoSerialRead.ino:344-374 | junk without a start byte, then frames of 1 to 5 bytes without an end byte: exactly those payloads come out, in order |
| FirmwareTraces.Resynchronises | AtMega/arduinoSerialRead/arduinoSerialRead.ino:344-374 | after any junk at all, at most the first of the frames that follow is lost |
| FirmwareTraces.BridgesAlwaysSafe | AtMega/arduinoSerialRead/arduinoSerialRead.ino:285-316 | after every single pin write of every run, no bridge is enabled both ways, the station bridge never backward, the hill bridge never reversed |
| FirmwarePins.PoweredMotorsTurn | AtMega/arduinoSerialRead/arduinoSerialRead.ino:285-308 | over every run, on any bytes and in any modes, at the end of each iteration a motor that has power has its bridge enabled forward |
| FirmwarePins.MaintenancePins | AtMega/arduinoSerialRead/arduinoSerialRead.ino:492-529 | where an iteration in MAINTENANCE leaves each of the ten pins, from any board and whatever is on the line: brakes open, each motor at full power forward if its start is pressed, else off if a stop is, else left alone |
| Arduinos.Arduino.constructor | AtMega/arduinoSerialRead/arduinoSerialRead.ino:60-121 | `setup` leaves brakes closed at 140 and 185, motors off and both bridges disabled, with the power-on latches |
| Arduinos.Arduino.ReadState | AtMega/arduinoSerialRead/arduinoSerialRead.ino:254-283 | which of the five modes is entered, one if-and-only-if each over the latches before and the switches, and what it does to the latches |
| Arduinos.Arduino.Checkout | AtMega/arduinoSerialRead/arduinoSerialRead.ino:184-209 | clears the safe latch exactly on an acknowledge with the ignition on |
| Arduinos.Arduino.EmergencyStop | AtMega/arduinoSerialRead/arduinoSerialRead.ino:224-252 | clears the stop latch exactly on a reset with both reads of ESTOP low |
| Arduinos.Arduino.CollectMessage | AtMega/arduinoSerialRead/arduinoSerialRead.ino:350-373 | the inner loop fills `msg` as the collector does, or is found to wait for ever |
| Arduinos.Arduino.Loop | AtMega/arduinoSerialRead/arduinoSerialRead.ino:341-595 | one iteration, in place: latches, mode, pin writes in order, reply bytes and bytes left are those of the function, and it hangs exactly when that says so; MAINTENANCE leaves every pin where the buttons call for, and a powered motor keeps its bridge |
| Arduinos.Arduino.Run | AtMega/arduinoSerialRead/arduinoSerialRead.ino:318-596 | any number of iterations ends in the state the functions give, every single pin write since `setup` left both bridges safe, and no motor ends with power and its bridge disabled |
| LinkRefinement.MessageGetsThrough | Pi/serial.cpp:41-62 | every message the Pi can encode, whatever its value and whatever follows, is collected and decodes to that message, its payload byte for byte if it has no end byte in it |
| LinkRefinement.EnactsInOrder | AtMega/arduinoSerialRead/arduinoSerialRead.ino:344-595 | with any arrival timing and any changes among the four obeying modes, from any board, all ten pins always stand where some first few of the messages put them and the rest are still waiting; never a hang |
| LinkRefinement.BridgesFollowCommands | AtMega/arduinoSerialRead/arduinoSerialRead.ino:416-427 | over any list of messages a motor's bridge is turned forward if the motor was sent any command, whatever its power, and is left as it was otherwise |
| LinkRefinement.EverythingIsRead | AtMega/arduinoSerialRead/arduinoSerialRead.ino:344-374 | as many looks at the line as there are bytes read them all |
| LinkRefinement.CommandRefinement | Pi/serial.cpp:129-220 | end to end: once the bytes of any list of messages are read, each actuator's pins stand at its last command, or where they were; each motor's bridge is enabled forward if it was sent any command; no motor has gained power without its bridge |
| LinkRefinement.PollRoundTrip | AtMega/arduinoSerialRead/arduinoSerialRead.ino:375-382 | a poll is answered whole, and the Pi then acts on exactly the mode the firmware is in |
| LinkRefinement.StartRoundTrip | AtMega/arduinoSerialRead/arduinoSerialRead.ino:437-466 | a start request is granted if and only if the firmware is in MANUAL and reads the start button pressed |
| LinkRefinement.PinsAfterCycles | Pi/controller.c:168-446 | the pins after the firmware has read everything a run of cycles sent are the actuators of that run |
| LinkRefinement.StopStopsTheMotors | AtMega/arduinoSerialRead/arduinoSerialRead.ino:563-595 | once the Pi hears STOP, both motor pins are at 0 as long as it hears STOP or nothing |
| LinkRefinement.BrakesExcludeOnThePins | AtMega/arduinoSerialRead/arduinoSerialRead.ino:104-109 | from `setup`, no run leaves both gravity brakes released on the pins, and each pair of servos moves together |
| JointRuns.AnswersInOrder | AtMega/arduinoSerialRead/arduinoSerialRead.ino:375-466 | over every run, in any modes and timing, the bytes sent back are, in order, the answers to the messages read: each poll gets the mode of the very iteration that reads it, each start request the button as that iteration finds it |
| JointRuns.PollAnswered | AtMega/arduinoSerialRead/arduinoSerialRead.ino:375-382 | if no earlier question is on the line and no earlier answer outstanding, all a wait can bring is the whole answer to the Pi's own poll, else that poll is still unread |
| JointRuns.HeardExactly | Pi/serial.cpp:64-97 | over every joint run, with any number of the outstanding answers arriving in each wait, the Pi hears a mode if and only if some answer arrives and the first it has not taken before, late ones included, was given to a poll by an iteration in that mode |
| JointRuns.NumberedAnswer | Pi/serial.cpp:64-97 | whatever the Pi has written, taken and left, each answer still outstanding, to a poll or to a start request, is byte for byte what the iteration that gave it said |
| JointRuns.LateAnswerFirst | Pi/serial.cpp:64-97 | if anything is outstanding when the Pi polls and some of it arrives, what the Pi makes of the wait is what it would have made of that alone |
| JointRuns.JointModeAgreement | Pi/controller.c:175-179 | over every joint run, answers arriving as late as they like, the Pi's mode is its first one until it hears the firmware, and then exactly the firmware's own mode in the iteration that gave the answer last heard, which comes after every earlier wait that left no answer in transit |
| JointRuns.JointPins | Pi/controller.c:168-446 | over every joint run outside MAINTENANCE the pins realise some first few of all messages sent and the rest are on the line |
| JointRuns.JointMotorsTurn | AtMega/arduinoSerialRead/arduinoSerialRead.ino:285-308 | over every joint run, in any modes, a motor that has power has its bridge enabled forward at the end of each cycle |
| JointRuns.EstopStopsTheMotors | AtMega/arduinoSerialRead/arduinoSerialRead.ino:254-272 | from ESTOP high for one firmware iteration with the return to safe not latched, unreset and with the ignition on: once the Pi has heard an answer given since and its bytes are read, both motor pins stand at 0, then and after every later cycle |
| JointRuns.SafeMotorsExactly | Pi/controller.c:398-444 | with the return to safe latched and not acknowledged, an answer heard in cycle `first` and the line empty: the station pin is 0 if and only if the last snapshot does not show the station ENTERING, the hill pin if and only if some cycle since `first` saw the hill not ENTERING or its power was 0 before |
| EstopWitness.EstopCanLeaveTheHillRunning | Pi/controller.c:398-405 | a concrete run from power-on that ends with ESTOP held for a whole cycle, the firmware heard, all bytes read, and the hill pin at 255 |
| JointStarts.StartHeardExactly | Pi/serial.cpp:114-127 | over every joint run, with any number of the outstanding answers arriving in each wait, the Pi hears a press if and only if it asks, some answer arrives and the first it has not taken before was given to a start request by an iteration in MANUAL that read the start button pressed |
| JointStarts.DriveOutNeedsButton | Pi/controller.c:271-329 | over every joint run, whatever the timing, a train driven out in MANUAL rests on a start that such an iteration granted and that no cycle has withdrawn |
| JointStarts.ButtonsBoundDispatches | Pi/controller.c:271-329 | if departures are seen in time, trains driven out in MANUAL never outnumber the iterations in MANUAL that granted a start because they read the button pressed, however late the answers |
| Snapshots.ReadsAgree | Pi/brakeZone.cpp:121-136 | whatever monitors write between any two `getState` calls, a section of branches runs as on one fixed snapshot |
| Snapshots.PassDecides | Pi/controller.c:189-444 | the branches, test by test in source order with short-circuiting, come to the decision of `Interlock` |
| Snapshots.SnapshotRefinement | Pi/controller.c:160-166 | in every interleaving of monitors with a cycle, commands and release are those of one decision on one snapshot, each entry of which its zone's live state had when it was copied |
| BlockSafety.StepKeeps | Pi/controller.c:168-446 | every allowed step of a train, monitor, the control thread or the firmware keeps the invariant |
| BlockSafety.StartIsGood | Pi/brakeZone.cpp:5-12 | a consistent start meets the invariant |
| BlockSafety.BlockSafety | Pi/controller.c:189-444 | in every run from a consistent start, in any interleaving, with commands as long in transit as they like, no zone ever holds two trains, and a train only crosses into a zone recorded EMPTY, with no arrival unread and no train in it |
| BlockSafety.CrossingIsSafe | Pi/controller.c:189-444 | the same of a single crossing, from any state that meets the invariant |
| Rearming.BrakeRearms | Pi/controller.c:375-395 | between any two departures from ride or pre-station its servo is driven to STOP, and the command that opens it for the second train, and leaves it open until that train departs, is one a cycle sent after that train had come to stand there, on a view of its zone ENTERED and the next EMPTY |
| Sampling.StepTells | Pi/controller.c:160-166 | what the copies taken so far tell of the trains stays true under every step but a station time-out between the copies of hill and station |
| Sampling.NoTrainVanishes | Pi/controller.c:160-166 | a completed snapshot shows every train in its own zone or the one behind, except one on the lift hill if the station was timed out between the two copies |
| MissedTrains.MissedExactly | Pi/controller.c:160-166 | within one cycle a train is missing from the completed snapshot if and only if it is on the lift hill, the hill is shown EMPTY and the station was timed out between the two copies |
| MissedTrains.EveryTrainIsCounted | Pi/controller.c:160-166 | without such a time-out each train is shown by a different zone, so there are at least as many occupied zones as trains |
| Sampling.ShortSnapshot | Pi/brakeZone.cpp:51-68 | that exception cannot arise if fewer than 500 quiet station polls fit in and the station's last edge was no exit |
| MissedTrains.QuickSnapshotShowsAll | Pi/controller.c:160-166 | every train is shown if, when the copying begins, no arrival on the hill is unread and no train is in the gap behind the station, and fewer than 500 of the station's polls are quiet until it is over |
| Progress.NoGridlock | Pi/controller.c:189-270 | in every fair infinite run with one to three trains that from some moment on has working sensors and is in AUTOMATIC or MANUAL, with no zone stranded at that moment, whatever happened before, some train still crosses into its next zone however long one waits |
| Stranded.GridlockExactly | Pi/brakeZone.cpp:51-87 | of such runs, with any number of trains and stranded zones or not: trains keep crossing for ever if and only if there are one to three and no zone is stranded |
| Stranded.StrandedGridlocks | Pi/brakeZone.cpp:51-87 | with a zone stranded and the sensors working from then on, crossings come to an end in every run, fair or not |
| Progress.BecomesCalm | Pi/brakeZone.cpp:51-118 | once trains rest, every queued edge is read and every zone left behind is timed out, unless its train is still in the gap |
| Progress.BecomesSteady | Pi/controller.c:172-270 | then a state is reached in which the actuators stand where the true zone states call for, no command on the line would move them, every standing train has been decided on and obeyed for, and every later decision asks for the same |
| Progress.BecomesServed | Pi/controller.c:238-329 | once every zone state is true, MANUAL comes to command what AUTOMATIC does, if requests for ever bring starts for ever |
| Progress.SomeoneUrged | Pi/controller.c:189-270 | and in that state, with one to three trains, some train is driven or free, one at rest in the gap included |
| Progress.AimServes | Pi/controller.c:189-270 | in AUTOMATIC a zone shown ENTERING has its motor on, and one shown ENTERED with the next EMPTY has its train free and the motor ahead on |
| FairRun.FairExecutionExists | Pi/controller.c:189-270 | the hypotheses of no gridlock can all be met: for one, two and three trains, in AUTOMATIC and in MANUAL with every request granted, a run in which they go round for ever |
| Witnesses.UnreadArrivalIsMissed | Pi/controller.c:160-166 | a concrete allowed run, with no train ever in a gap and one quiet station poll during the copying, whose snapshot shows four EMPTY zones with a train on the hill, its arrival unread at the start |
| Witnesses.TrainInTheGapIsMissed | Pi/controller.c:160-166 | the same with nothing unread at the start but the train in the gap behind the station |
| Witnesses.LongCopyingMisses | Pi/controller.c:160-166 | the same with nothing unread and no gap, but 500 quiet station polls during the copying |
| Witnesses.UnrecordedTrainIsHit | Pi/controller.c:254-270 | from the program's own all-EMPTY start with a train standing in the pre-station, a concrete run releases another into it |
| Necessity.WithoutHandover | Pi/brakeZone.cpp:51-68 | a concrete run from a consistent start, allowed but for one quiet poll that times the station out while a train is in the gap ahead of it, that ends with two trains in the station |
| Necessity.WithoutHearingAhead | Pi/brakeZone.cpp:51-68 | the same with nobody in the gap, but a quiet poll that times the station out while the arrival on the hill is unread: two trains on the hill |
| Necessity.WithoutFastController | Pi/controller.c:196-210 | a concrete run from a consistent start, allowed but for one train that runs over the top of the hill before a cycle has seen it there, that ends with two trains on the ride |

## Left out

- The ncurses display, `getModeString`, `getStateString`, every LED and `Ticker`: display only.
- UDP and IMU code on the Pi and the ESP32: no effect on control.
- GPIO request setup, termios and `ioctl` calls: results of `select` and `read` are parameters. The model assumes that bytes written to the port reach the Arduino; discarding of untransmitted output by `TCFLSH`, and exiting on a failed write, are not modelled.
- Real time and train dynamics: poll counts and the named hypotheses stand in for seconds and speeds.
- MAINTENANCE in the closed loop, where brakes are open: it is in the firmware model, the bridges and the latch traces.
- The encoders for driving backward, `requestControl`, `Pi/controlFunctions.h`, `Pi/checksensor.cpp` and the older top-level sketch: not on the control path.
- Arms of the branch chains that no zone state reaches, such as a second test for EMPTY, are kept in `Snapshots` but not in the methods of `Controllers`.
- BrakeZones.BrakeZone.UpdateInternalState: the quiet count is a natural number, not a 32-bit `int`, which would take about 50 days of quiet polls to overflow.
- SerialLink.Serial.SendPacket: does not model the output flush after the writes, nor the exit on a failed write.
- SerialLink.Serial.RecvPacket: does not model the input flush after the read, nor a read that fails with -1.
- Controllers.Controller.ControlRollerCoaster: monitors run between cycles here; within a cycle they interleave in `Snapshots` and `ClosedLoop`.
- InterlockRuns.ModeAgreement: replies are inputs here; the firmware's own mode comes in with `JointRuns.JointModeAgreement`.
- LinkRefinement.StopStopsTheMotors: the STOP heard is an input here; `JointRuns.EstopStopsTheMotors` starts from the switch.
- Sampling.ShortSnapshot: gives one direction; a station time-out in the window need not hide a train.
- JointRuns.JointModeAgreement: starts from a state with nothing outstanding, as the Pi does at power-on; answers cut in two are `Interlock.TruncatedModeReply`.
- Bytes in the closed loop: what is in transit there is whole commands, obeyed in order; that the frames are read so is `LinkRefinement` and `JointRuns`.
