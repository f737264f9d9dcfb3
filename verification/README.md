# SMD Control Server: model and proofs

SMD_Control_Server is a text-protocol server in C for AMCI integrated stepper motors. One client
at a time sends comma-separated lines; the server turns them into writes of 16-bit Modbus
registers, uploads assembled moves segment by segment, and in manual mode runs a thread that turns
samples of a knob into jogs. This project models that path, from the client's line to the drive's
registers and back, and proves what it keeps.

`dafny verify dfyconfig.toml` checks everything.

## How it is built

Every part has pure functions that say what a step does, imperative code in the form of the C
source proved equal to them, and lemmas about the functions.

| file | what it holds |
|---|---|
| c_arithmetic.dfy | C integer division, 16- and 32-bit narrowing, bits |
| text.dfy, utilities.dfy | tokeniser, decimal and hexadecimal text, the word split, the hex expander (SMD_Utilities.c) |
| registers.dfy, readback.dfy | the register line built with strncat, and what a reader recovers from it (SMD_Modbus.c) |
| drive.dfy | the drive: output registers, program mode, handshake bits 9 and 8 |
| modbus.dfy | connections, the write loop, resending of stops, the register read (SMD_Modbus.c) |
| motor_commands.dfy | range checks and write programs of the SMD_* commands, torn-command and range lemmas |
| delivery.dfy | what a program leaves behind when writes fail, and what the returned code tells |
| upload.dfy, handshake.dfy | assembled moves: collecting segments, entering program mode, the handshake |
| upload_runs.dfy, program_mode.dfy | what an upload means, whichever attempts fail and whichever writes are lost |
| manual_controller.dfy, sample_buffer.dfy | the manual-mode controller: one pass, its buffer |
| manual_threads.dfy, single_controller.dfy | controllers in any interleaving; one at a time, and the motor they share |
| dispatch.dfy | which handler a line selects, with which parameters (SMD_SocketOps.c) |
| session.dfy, session_runs.dfy | the flags, the four scenarios, answers and the accept loop as functions; invariants of every run |
| server.dfy | the variables themselves, and the functions of the C source that assign them |
| wire_safety.dfy, whole_server.dfy | what can reach the drive over whole runs, session alone and with its controllers |
| motor_log.dfy, motor_safety.dfy, motor_inputs.dfy | what the motor is really told: the log of whole runs, when a reversal in it is not stopped, and runs that show it |
| wire_values.dfy, manual_wire.dfy | what each command and each manual call leaves in the registers, in numbers |
| recognition.dfy, line_effects.dfy | what each line of the protocol does, from its word to the registers and the answer |
| end_to_end.dfy | assembled moves from client lines to the drive's program and back |

How each attempt to connect goes is a given finite list: connected (with a set of writes that
fail, and the answer to a read), errno 9, or unreachable; past its end the drive is unreachable.
"Working" connections are those that drop no write and answer every read; which of them come up
stays open. JSON documents arrive parsed: an ordered list of members and the type string.
Whether what is written to the client gets through and whether a thread can be created are part
of each event; the record of messages holds those that got through.

The drive follows the handshake the code relies on: 2048 in register 1024 enters program mode
(keeping the program if already in it) and sets bits 9 and 8; 6144 latches registers 1026-1031 and
1033 as the next segment if one was asked for and clears bit 9; any other command leaves program
mode; bit 14 is always set. All other status bits are arbitrary.

## Where the code says otherwise

The model follows the code. A claim that turns out false is stated with its exact condition;
where that does not show one at once, also with an input on which it fails.

- A send that connects reports success whatever became of its writes (SMD_Modbus.c lines 218/239):
  Delivery.ReportIsRightExactlyWhen, SuccessWithoutDelivery. A stop that gets through after errno 9
  is reported failed: Modbus.StopReportIsWrongOnlyAfterBusy.
- A read that connects reports success even if it failed (lines 279/353) and writes nothing, and the
  upload loop has no branch for bit 9 staying low after the prepare. So an upload can be accepted
  with segments missing, in exactly three ways: the drive was not asking for one when the
  upload began (programming was granted over a failed read); a prepare's write of 2048 was lost
  (UploadRuns.DoneWithASegmentMissing); or a segment did not arrive and the read that should
  notice failed over old text (AcknowledgedButNotSent). See CompleteExactlyWhen. How far the
  acknowledgements tell the client: CompleteExactlyWhenAcknowledged.
- `%X` does not pad, so index 6 is bit 9 only for words from 0x1000 up: Readback.TextIsBinaryWord.
- The strncat bound drops one comma of a status line when word 0 < 16 and word 1 >= 4096, and a
  position is then read from the wrong words: Registers.BuildLine, Readback.PositionRoundTrip.
- 16-bit parameters are narrowed before their range checks: Dispatch.AcceptedAfterCut,
  LargeAccelerationPasses.
- find_home does not clear the command register first, and set_configuration writes its control
  word before its values: MotorCommands.HomingKeepsThePreviousCommand, ConfigurationArrives.
- Segments are stored under their index in the document: Upload.TableIsProfileWhenLeading.
- A jog can still follow stopManualMode: ManualThreads.QuietExactlyWhen.
- More than one controller can be alive: SingleController.OneAtATimeExactlyWhen,
  RestartTooSoonCanFight.
- Even one at a time, the motor can be reversed without a stop, and can be left running by a lost
  hold: MotorSafety.ReversalExactlyWhen, with the inputs of MotorInputs, and
  MotorFollowsExactlyWhen, LostCallsAreNotRepeated.
- A motion command whose writes are partly lost can be torn: MotorCommands.TornExactlyWhen.
- The header SMD_Constants.h promises REL_MOVE_COMPLETE for relativeMove and RESET_ERRORS_SUCCESS
  for resetErrors; the code answers COMMAND_SUCCESS to both. Its sample profile has no "type"
  member, without which the code does not get as far as uploading. It says idle current is 1..100
  and motor current 1..34; the code takes 0..100 and 10..34. It gives homing jerk and speed from
  1; the code takes 0. The comment on manual files says 1 is clockwise; the code takes 0.

## Model

| member | source | states |
|---|---|---|
| Text.SplitIsFaithful | SMD_Control_Server/src/SMD_Utilities.c:62-107 | no token contains a comma, and joining the tokens with commas gives back the line, for every line |
| Text.SplitOfJoin | SMD_Control_Server/src/SMD_Utilities.c:82-107 | tokenising a comma-join of comma-free texts gives those texts back |
| Text.TokensAreCommasPlusOne | SMD_Control_Server/src/SMD_Utilities.c:62-80 | a line has one token more than it has commas |
| Utilities.StrSep | SMD_Control_Server/src/SMD_Utilities.c:74 | one strsep step: the token up to the first comma, and what is left of the line |
| Utilities.NumberOfTokens | SMD_Control_Server/src/SMD_Utilities.c:62-80 | the counting loop returns -1 for a line with a space and otherwise the number of tokens the tokeniser produces |
| Utilities.TokenizeClientInput | SMD_Control_Server/src/SMD_Utilities.c:82-107 | token i lands in cell i, other cells are untouched, and -1 is returned exactly when there are more tokens than cells |
| Utilities.PrintedIntParses | SMD_Control_Server/src/SMD_Utilities.c:20-34 | every 32-bit integer printed in decimal reads back as itself, whatever non-digit text follows |
| Utilities.NoNumberIsMinusOne | SMD_Control_Server/src/SMD_Utilities.c:26-29 | text that does not begin with a number, after white space and one sign, counts as -1 |
| Utilities.PlusAndSpacesAreAllowed | SMD_Control_Server/src/SMD_Utilities.c:24 | a plus sign, or white space, before the number is allowed |
| Utilities.BigNumbers | SMD_Control_Server/src/SMD_Utilities.c:24-29 | a number beyond 32 bits wraps, one beyond a long counts as -1 |
| Utilities.WordsRoundTrip | SMD_Control_Server/src/SMD_Utilities.c:36-60 | the thousands/units split loses nothing exactly for -32768999..32767999 (all documented positions are inside); units stay below 1000 and the words never have opposite signs |
| Utilities.InlineSplitAgrees | SMD_Control_Server/src/SMD_Motor_Commands.c:189-197 | the split written out in jog (and in set_configuration) is convert_int_to_words on the accepted speeds |
| Utilities.HexStringToBinString | SMD_Control_Server/src/SMD_Utilities.c:116-405 | the expander succeeds exactly on non-empty hexadecimal text that fits four characters a digit; on failure it leaves the bits so far |
| Utilities.ExpandedHexShowsBits | SMD_Control_Server/src/SMD_Utilities.c:116-405 | in the expansion of %X of any number, character k from the right is bit k |
| Registers.AppendRegister | SMD_Control_Server/src/SMD_Modbus.c:283-334 | one pass of the line-building loop, with the cutting strncat bounds, appends word i and its comma, except the one comma that is lost |
| Registers.BuildLine | SMD_Control_Server/src/SMD_Modbus.c:270-337 | the strncat-built line is the plain prefix and comma-join exactly unless the prefix is ",,", word 0 < 16 and word 1 >= 4096; otherwise it is that line less one comma; it never exceeds 73 characters |
| Readback.StatusLineSplits | SMD_Control_Server/src/SMD_Modbus.c:302-337 | a status line tokenises into two empty tokens, the ten rendered words, and the newline on the last; a line that lost its comma has the second and third word run together and one token less |
| Readback.StatusLineReports | SMD_Control_Server/src/SMD_Modbus.c:283-332 | a status line reads back in full: two empty tokens, two hexadecimal words, and the eight others as the signed numbers they stand for |
| Readback.ConfigLineReports | SMD_Control_Server/src/SMD_Modbus.c:313-332 | so does a configuration line, whose first token carries the three marks |
| Readback.TextIsBinaryWord | SMD_Control_Server/src/SMD_Modbus.c:290 | expanding the text of a word gives its sixteen bits, index 15-k showing bit k, exactly when the word is at least 0x1000 |
| Readback.StatusBitsEndToEnd | SMD_Control_Server/src/SMD_Motor_Commands.c:709-726 | render, join, tokenise, token 2, expand: index 15-k is bit k of word 0 whenever word 0 >= 0x1000, whatever the other nine words |
| Readback.BitTestedAtIndex6 | SMD_Control_Server/src/SMD_Motor_Commands.c:569-573 | which bit the test at index 6 really looks at for every word: 9, 5, 1 or none |
| Readback.PositionRoundTrip | SMD_Control_Server/src/SMD_Utilities.c:36-60 | a position split, stored unsigned, reported on a status line, tokenised, parsed and recombined is itself exactly when it is encodable; on a line that lost its comma its units are read as thousands and the next word as units |
| Drive.StatusBits | SMD_Control_Server/src/SMD_Motor_Commands.c:709-726 | the status word of the modelled drive is at least 0x4000 and its bits 9 and 8 are "ready" and "programming" |
| Modbus.Link.SendModbusCommand | SMD_Control_Server/src/SMD_Modbus.c:151-244 | the write loop with dropped writes, the overwritten failure code and the recursive resending of stop commands leaves exactly the specified line and drive state; the code says only whether the first attempt connected |
| Modbus.StopReportIsWrongOnlyAfterBusy | SMD_Control_Server/src/SMD_Modbus.c:175-192 | a stop gets a connection once if the first answer other than errno 9 is one, never otherwise; the returned code misreports this exactly when the first answer was errno 9 and a later one connected (whether its writes then arrive is the subject of Delivery) |
| Delivery.RegisterAfter | SMD_Control_Server/src/SMD_Modbus.c:203-233 | every register after any number of writes, whichever of them fail |
| Delivery.HoldsExactlyWhen | SMD_Control_Server/src/SMD_Modbus.c:203-239 | a program leaves every register at its last value from every starting state exactly when the last write kept to each register carries that value |
| Delivery.ReportIsRightExactlyWhen | SMD_Control_Server/src/SMD_Modbus.c:159-240 | for every command and connect history, exactly when the returned code tells whether the values arrived: on a first connection, when the last values were kept; else, when no later resending of a stop arrived |
| Delivery.SuccessWithoutDelivery | SMD_Control_Server/src/SMD_Modbus.c:206-239 | the failing input: any program whose writes all fail on its connection returns success and leaves the drive as it was |
| Modbus.Link.ReadModbusRegisters | SMD_Control_Server/src/SMD_Modbus.c:246-358 | a read returns the rendered word 0 and the register line; or, when it fails, leaves the caller's array as it was, returns a line of fresh memory and still reports success; or reports no route |
| MotorCommands.IssueCommand | SMD_Control_Server/src/SMD_Motor_Commands.c:154-454 | a call out of range is answered as invalid, and only such a call; it sends nothing; any other sends exactly one frame, within range, when a connection that counts comes up, else none |
| MotorCommands.CommandsAreSendable | SMD_Control_Server/src/SMD_Modbus.c:181-191 | no command other than the two stops is resent: the prefix comparison matches no other name |
| MotorCommands.OneAttempt | SMD_Control_Server/src/SMD_Modbus.c:151-244 | every command but the stops makes one attempt, and is sent exactly when it connects |
| MotorCommands.CommandBitStaysClear | SMD_Control_Server/src/SMD_Motor_Commands.c:199-202 | in jog and relative move, between the first write and the last, the command register reads 0 from any starting state exactly if the first write is kept, else the previous command |
| MotorCommands.CommandBitComesWithItsParameters | SMD_Control_Server/src/SMD_Motor_Commands.c:154-246 | the motion registers decode to the parameters of the call when its command bit appears, if neither is lost (homing keeps the position registers); which bit that is, the next rows say |
| WireValues.JogOnTheWire | SMD_Control_Server/src/SMD_Motor_Commands.c:183-203 | a jog whose bit and parameters arrive leaves 128 in register 1024 for clockwise and 256 for counter-clockwise, position 0, and its speed, accelerations and jerk in their registers |
| WireValues.RelativeMoveOnTheWire | SMD_Control_Server/src/SMD_Motor_Commands.c:235-245 | a relative move leaves 2, and its position, speed, accelerations and jerk |
| WireValues.HomingOnTheWire | SMD_Control_Server/src/SMD_Motor_Commands.c:443-453 | homing leaves 32 or 64, the old position, and its speed, accelerations and jerk |
| WireValues.EnabledAfter | SMD_Control_Server/src/SMD_Motor_Commands.c:199-244 | motions and presets leave 32768 in register 1025 |
| WireValues.ClearedAfter | SMD_Control_Server/src/SMD_Motor_Commands.c:199-200 | jogs and homing leave 0 in register 1032 |
| WireValues.ClearedFirst | SMD_Control_Server/src/SMD_Motor_Commands.c:278-303 | a hold and a reset take the command in force back before setting their own bit; stopping at once, enabling and disabling do not |
| WireValues.EnabledWhileUploading | SMD_Control_Server/src/SMD_Motor_Commands.c:746-765 | so do the programs of the upload |
| MotorCommands.TornExactlyWhen | SMD_Control_Server/src/SMD_Motor_Commands.c:199-244 | a jog or relative move can show its command bit with other parameters than its own exactly when its last write is kept and one that carries a parameter is lost |
| MotorCommands.HomingKeepsThePreviousCommand | SMD_Control_Server/src/SMD_Motor_Commands.c:449-452 | find_home does not clear the command register: until its last write the previous command stays in force |
| MotorCommands.PresetArrives | SMD_Control_Server/src/SMD_Motor_Commands.c:305-356 | a preset has its whole position in place when its command bit appears, and leaves the command register alone until then |
| MotorCommands.ConfigurationArrives | SMD_Control_Server/src/SMD_Motor_Commands.c:386-411 | an accepted configuration arrives whole; its control word is already in force after the second write |
| MotorCommands.RunArrives | SMD_Control_Server/src/SMD_Motor_Commands.c:629-660 | the dwell time and the kind of move are in place when the run bit appears, and the command register is left alone until then |
| MotorCommands.PlainCommandsKeepTheProfile | SMD_Control_Server/src/SMD_Motor_Commands.c:248-303 | stops, enable, disable and reset leave the motion registers alone and end the program mode; their final command and enable values |
| MotorCommands.LoadingClearsTheProfile | SMD_Control_Server/src/SMD_Motor_Commands.c:122-134 | loading the configuration clears the whole motion profile |
| MotorCommands.AcceptedIsWireSafe | SMD_Control_Server/src/SMD_Motor_Commands.c:154-246 | an accepted jog, relative move or homing carries acceleration and deceleration in 1..5000, jerk in 0..5000, recombined speed in 0..2999999 and recombined position within 8388607 |
| Dispatch.ReadParameters | SMD_Control_Server/src/SMD_SocketOps.c:247-289 | count, tokenise into an array of exactly that many cells, convert: succeeds exactly when the count is the one asked for, and then yields every parameter |
| Dispatch.CommandLineParsed | SMD_Control_Server/src/SMD_SocketOps.c:231-649 | a printed command line with any 32-bit parameters selects its own handler and direction, with its parameters cut to the declared widths |
| Dispatch.CommandRoundTrip | SMD_Control_Server/src/SMD_SocketOps.c:231-588 | printing a jog, homing, relative move, configuration or preset as a client line and parsing it selects that handler with exactly those parameters |
| Recognition.BareWordSelects | SMD_Control_Server/src/SMD_SocketOps.c:368-656 | a line that begins with one of the eleven words without parameters, and has no jog or home word in it, selects its handler |
| Recognition.SearchedWordSelects | SMD_Control_Server/src/SMD_SocketOps.c:233-363 | a jog word counts anywhere in the line, a home word anywhere if there is no jog word; the counter-clockwise word decides the direction; five tokens are wanted |
| Recognition.ParameterWordSelects | SMD_Control_Server/src/SMD_SocketOps.c:374-623 | the other six words count at the start of a line without them |
| Dispatch.RunRoundTrip | SMD_Control_Server/src/SMD_SocketOps.c:595-649 | a dwell line is taken exactly for 0..65535; a blend line by its direction modulo 65536 |
| Dispatch.MotionParametersAreCut | SMD_Control_Server/src/SMD_SocketOps.c:263-289 | for every line at all, 16-bit parameters reaching a motion command are congruent modulo 65536 to the numbers written, 32-bit ones equal |
| Dispatch.AcceptedAfterCut | SMD_Control_Server/src/SMD_SocketOps.c:263-585 | a jog, homing, relative move, configuration or preset line passes the range checks exactly when its 16-bit parameters modulo 65536 and its 32-bit ones do, so acceleration 65786 passes as 250 |
| Dispatch.LargeAccelerationPasses | SMD_Control_Server/src/SMD_SocketOps.c:263-296 | the input: a jog line with acceleration 65786 is accepted as 250 |
| Upload.CollectSegments | SMD_Control_Server/src/SMD_Motor_Commands.c:501-518 | the loop counts the segment members and stores each at its index in the document, with the member's own position and speed, and its accelerations and jerk cut to 16 bits |
| Upload.LeadingFields | SMD_Control_Server/src/SMD_Motor_Commands.c:508-515 | segment i of a profile whose segments lead has the numbers of member i |
| Upload.SegmentsAreNamed | SMD_Control_Server/src/SMD_Motor_Commands.c:502-506 | if the segments lead, they are exactly the members whose keys begin with "segment" |
| Upload.TableIsProfileWhenLeading | SMD_Control_Server/src/SMD_Motor_Commands.c:509-516 | the first n cells are the n segments, whatever the array held, exactly when the segment members come first |
| Upload.BlockMeansSegment | SMD_Control_Server/src/SMD_Motor_Commands.c:746-756 | a latched block decodes to its segment exactly when position and speed are encodable |
| WireValues.BlockOnTheWire | SMD_Control_Server/src/SMD_Motor_Commands.c:746-756 | the block of an encodable segment carries its position and speed as thousands and units, and the others as 16-bit words |
| Upload.Prepared | SMD_Control_Server/src/SMD_Motor_Commands.c:758-765 | the prepare writes put the drive in program mode asking for a segment (with an empty program unless it was in that mode) exactly when the second write is kept; else nothing changes |
| Upload.SegmentLatched | SMD_Control_Server/src/SMD_Motor_Commands.c:746-756 | a drive in program mode stores one block and lowers bit 9 exactly when it asks for a segment and the last write is kept; the block is the segment's own if the field writes are kept |
| Handshake.ProgramFirstBlock | SMD_Control_Server/src/SMD_Motor_Commands.c:680-744 | the code of program_first_block follows the two status characters of token 2 and nothing else |
| Handshake.UploadSegment | SMD_Control_Server/src/SMD_Motor_Commands.c:543-623 | one round: send, read, test bit 9 down, prepare, read, test bit 9 up, acknowledge |
| Handshake.UploadSegments | SMD_Control_Server/src/SMD_Motor_Commands.c:543-626 | the loop stops at the first failed round and acknowledges in order |
| Handshake.ParseAndUpload | SMD_Control_Server/src/SMD_Motor_Commands.c:471-627 | error paths for no JSON, no or too many segments and unknown type send nothing; otherwise the first n cells are uploaded and the recognised type is kept even on failure |
| UploadRuns.RoundIs | SMD_Control_Server/src/SMD_Motor_Commands.c:543-623 | one round over any attempts, any drive, any replies: exactly when it is given up, what is stored (which reads have no part in), whether the drive asks afterwards, and when it is acknowledged; both reads fill one array, so a failed second read shows the first one's text |
| UploadRuns.RoundLogs | SMD_Control_Server/src/SMD_Motor_Commands.c:543-602 | a round that goes through logs the segment's writes and then the prepare, under their names |
| UploadRuns.UploadIs | SMD_Control_Server/src/SMD_Motor_Commands.c:543-626 | a whole upload to any drive, whichever attempts fail, whichever writes are lost and whichever reads fail: given up in the first round that does not go through, with exactly the blocks stored and the numbers acknowledged that the outcomes say |
| UploadRuns.CompleteExactlyWhen | SMD_Control_Server/src/SMD_Motor_Commands.c:543-626 | an upload of k segments not given up added k blocks, the segments' own if their fields arrive, exactly when the drive asked at the start, every prepare but the last arrived, and so did every latch no answered read has checked |
| UploadRuns.CompleteExactlyWhenAcknowledged | SMD_Control_Server/src/SMD_Motor_Commands.c:594-626 | what a client can check: with acknowledgements 1..k-1 the upload is complete exactly when every latch no answered read has checked arrived; without one of them it is not, unless a second read failed |
| UploadRuns.DoneWithASegmentMissing | SMD_Control_Server/src/SMD_Motor_Commands.c:576-603 | the failing input: the prepare write lost in the first of two rounds gives a successful upload with the second segment missing |
| UploadRuns.AcknowledgedButNotSent | SMD_Control_Server/src/SMD_Motor_Commands.c:543-602 | the failing input: a segment never sent, a first read that fails over old text with bit 9 down, and a second read that finds the bit still up give an acknowledged round that stored nothing |
| UploadRuns.WorkingUpload | SMD_Control_Server/src/SMD_Motor_Commands.c:543-626 | with nothing lost, an upload not given up is complete and fully acknowledged, and four connections a segment are enough |
| ProgramMode.LineTestIsBitTest | SMD_Control_Server/src/SMD_Motor_Commands.c:711-726 | the whole-line test at the start of an upload holds exactly when status bits 9 and 8 are set |
| ProgramMode.FirstBlockGranted | SMD_Control_Server/src/SMD_Motor_Commands.c:680-744 | programming is granted exactly when both connections come up and the line of the second says so: the drive asks, or, if the read failed, fresh memory happens to say it; and what the drive is left with |
| ProgramMode.ProfileStoredExactlyWhen | SMD_Control_Server/src/SMD_Motor_Commands.c:543-626 | an upload to any drive, whatever program it holds, is given up exactly when some round does not go through; otherwise it adds n blocks, and, fields arriving, exactly the profile after the old program if all its numbers are encodable, exactly when the drive asked, every prepare but the last arrived and so did every unchecked latch |
| ProgramMode.ProfileAcknowledged | SMD_Control_Server/src/SMD_Motor_Commands.c:594-603 | what acknowledgements 1..n-1 tell about those n blocks |
| ManualController.Controller.Pass | SMD_Control_Server/src/SMD_Motor_Commands.c:784-918 | one loop pass over the real buffer and memory is the sampling and deciding functions |
| ManualController.Controller.Update | SMD_Control_Server/src/SMD_Motor_Commands.c:834-889 | the branch structure on direction and speed yields the specified memory and commands |
| ManualController.MemoryIsFaithful | SMD_Control_Server/src/SMD_Motor_Commands.c:834-889 | what the controller remembers is always the motion its commands amount to |
| ManualController.FollowsTheLastValidSample | SMD_Control_Server/src/SMD_Motor_Commands.c:820-891 | after any samples, valid or not, the commands sent on change amount to the last valid sample |
| ManualController.NextSampleLeadsTo | SMD_Control_Server/src/SMD_Motor_Commands.c:834-889 | exactly what the next sample leads to after any samples: a hold to stop, a hold and a jog to turn, a jog to start or change speed, nothing if nothing changes |
| ManualController.RepeatedSampleIsSilent | SMD_Control_Server/src/SMD_Motor_Commands.c:825-889 | the same sample again sends nothing |
| ManualController.NeverReversesWithoutHold | SMD_Control_Server/src/SMD_Motor_Commands.c:834-889 | in every trace opposite jogs have a hold between them, and adjacent jogs differ in speed only |
| ManualController.ManualCommandsAreAccepted | SMD_Control_Server/src/SMD_Motor_Commands.c:814-889 | the range checks of SMD_jog never reject a manual command (what it sets is ManualWire's subject) |
| ManualWire.FirstSampleReachesTheDrive | SMD_Control_Server/src/SMD_Motor_Commands.c:798-850 | from the file to the registers: a new controller that reads "d,p", p in 1..1023, over a connection that drops nothing leaves 128 for d = 0 and 256 for d = 1, speed 30p, accelerations 250, no jerk, position 0 |
| ManualWire.ManualCallOnTheWire | SMD_Control_Server/src/SMD_Motor_Commands.c:849-887 | any call: a hold leaves 4 and the profile as it was, a jog 128 or 256 and its speed |
| ManualWire.EveryCallArrives | SMD_Control_Server/src/SMD_Motor_Commands.c:784-891 | so does every call of every controller in every run, when its connection comes up and drops nothing |
| ManualWire.ThreadSeesTheFile | SMD_Control_Server/src/SMD_Motor_Commands.c:784-818 | under every interleaving, the samples a controller takes are those of the lines it finds, read into its own buffer |
| ManualWire.ControllerFollowsTheFile | SMD_Control_Server/src/SMD_Motor_Commands.c:784-891 | under every interleaving, once a new controller has nothing left to send its calls amount to the last line it found |
| SampleBuffer.NewestSampleIsDecoded | SMD_Control_Server/src/SMD_Motor_Commands.c:798-818 | with any tidy leftover bytes in the buffer, a read of a well-formed line gives two tokens and that line's sample |
| SampleBuffer.FailedReadRepeatsTheSample | SMD_Control_Server/src/SMD_Motor_Commands.c:794-796 | after a read that fails the pass takes the old sample again |
| SampleBuffer.NoFileNoSample | SMD_Control_Server/src/SMD_Motor_Commands.c:786-796 | a missing, unreadable or empty file gives no sample and leaves the buffer alone |
| SampleBuffer.StaleBytesNeverShow | SMD_Control_Server/src/SMD_Motor_Commands.c:774-818 | for every history of well-formed lines, pass i decodes line i although the buffer is never cleared |
| SampleBuffer.MotionFollowsTheFile | SMD_Control_Server/src/SMD_Motor_Commands.c:774-891 | from file contents to motion: after any history the commands amount to the last line |
| ManualThreads.StopIsBounded | SMD_Control_Server/src/SMD_Motor_Commands.c:784-920 | once the flag is down and stays down, under every interleaving a controller sends at most one more hold, then at most one more jog, and exits within four of its own steps |
| ManualThreads.QuietExactlyWhen | SMD_Control_Server/src/SMD_Motor_Commands.c:784-887 | "no jog after the stop" holds exactly when the controller is not past its flag test with a jog still possible, whatever is in its buffer |
| ManualThreads.EveryThreadRunsAlone | SMD_Control_Server/src/SMD_Motor_Commands.c:769-922 | under every interleaving each controller sends what a lone controller would for its own samples |
| ManualThreads.NewControllerIsSafe | SMD_Control_Server/src/SMD_Motor_Commands.c:769-922 | reversal safety and following the last sample hold for each controller under every interleaving |
| ManualThreads.RestartCanLeaveTwoControllers | SMD_Control_Server/src/SMD_SocketOps.c:651-656 | an input: a quick stop and start leaves two controllers running |
| SingleController.OneAtATimeExactlyWhen | SMD_Control_Server/src/SMD_SocketOps.c:651-656 | at most one controller is alive throughout a run exactly when every start of manual mode is made with all older controllers gone |
| SingleController.RestIsEnough | SMD_Control_Server/src/SMD_Motor_Commands.c:784-920 | after leaving manual mode, the turns each controller still needs (four at most) make the next start such a one |
| SingleController.LoneControllerIsSafe | SMD_Control_Server/src/SMD_Motor_Commands.c:820-891 | between two such starts all calls are those of one controller: no reversal without a call to hold, and in the end the last valid sample |
| SingleController.CallsAreSafeExactlyWhen | SMD_Control_Server/src/SMD_Motor_Commands.c:834-889 | with such starts, the calls of all controllers together are reversal safe exactly when they are where one controller follows another, and that is always the first call after a restart |
| SingleController.EveryNewControllerIsSafe | SMD_Control_Server/src/SMD_Motor_Commands.c:834-889 | every controller started at any time in any run makes reversal safe calls, and when it has none left to make they amount to its last valid sample |
| SingleController.RestartMayJogEitherWay | SMD_Control_Server/src/SMD_Motor_Commands.c:834-850 | a restart may begin with a call to jog in either direction, whatever was called before |
| SingleController.TwoLiveControllersCanFight | SMD_Control_Server/src/SMD_Motor_Commands.c:834-850 | two controllers alive at once can call for opposite jogs with no hold between, though each is safe |
| SingleController.RestartTooSoonCanFight | SMD_Control_Server/src/SMD_SocketOps.c:651-684 | the input that leads there: stop and start before the old controller has looked at the flag |
| SingleController.NewestStaysAlive | SMD_Control_Server/src/SMD_SocketOps.c:651-656 | while manual mode is on and the thread of its last start could be created, that controller has not exited |
| SocketServer.Server.CloseCommandConnection | SMD_Control_Server/src/SMD_Motor_Commands.c:84-98 | whatever mode the session was in, afterwards it is not connected, not waiting and not in manual mode; the move type, the client and what it has received stay |
| SocketServer.Server.OpenCommandConnection | SMD_Control_Server/src/SMD_Motor_Commands.c:59-82 | afterwards a session is open exactly when success is reported, in no mode, with nothing sent to the drive |
| SocketServer.Server.Connect | SMD_Control_Server/src/SMD_SocketOps.c:139-203 | a session is open afterwards exactly for a two-token connect line with an address whose first attempt connects |
| SocketServer.Server.Execute | SMD_Control_Server/src/SMD_SocketOps.c:231-662 | in Scenario 1 only startManualMode turns manual mode on, only disconnect ends the session, the move type stays, and only frames in range, of the loaded type, and stops asked for are added; what each line does is LineEffects' subject |
| SocketServer.Server.ManualMode | SMD_Control_Server/src/SMD_SocketOps.c:665-699 | in Scenario 2 manual mode ends exactly on stopManualMode, and the session exactly when that stop does not connect at once |
| SocketServer.Server.LoadAssembledMove | SMD_Control_Server/src/SMD_SocketOps.c:702-719 | in Scenario 3 one document of any kind ends the wait, the session stays, and the move type changes exactly when the document names one |
| SocketServer.Server.ParseSocketInput | SMD_Control_Server/src/SMD_SocketOps.c:137-726 | from every reachable state one of the first three scenarios applies; flags stay sane, each flag moves exactly under its condition, and the codes for a profile asked for and for invalid input are returned exactly under theirs |
| SocketServer.Server.Respond | SMD_Control_Server/src/SMD_SocketOps.c:728-837 | exactly when the session waits, is in manual mode, is connected, and has hung up on the client after one line, in any scenario |
| SocketServer.Server.Loop | SMD_Control_Server/src/SMD_SocketOps.c:91-134 | over any events the flags stay sane, the move type is that of the latest recognised profile, everything sent is in range, and after the loss of a client the next one finds a clean session |
| SessionRuns.ServedIsSane | SMD_Control_Server/src/SMD_SocketOps.c:137-837 | one pass keeps: flags 0 or 1, not connected means neither waiting nor manual, never both, connected means a connection object |
| SessionRuns.RunIsSane | SMD_Control_Server/src/SMD_SocketOps.c:91-134 | so does every run, and Scenario 4 is unreachable |
| SessionRuns.WaitsExactlyWhen | SMD_Control_Server/src/SMD_SocketOps.c:825-830 | the session waits for a profile exactly after an accepted programAssembledMove, and each waiting phase takes at most one line |
| SessionRuns.ManualExactlyWhen | SMD_Control_Server/src/SMD_SocketOps.c:651-684 | manual mode is on exactly after startManualMode or a line in manual mode other than stopManualMode |
| SessionRuns.ConnectedExactlyWhen | SMD_Control_Server/src/SMD_SocketOps.c:139-203 | when the session with the drive is up after an event, exactly |
| SessionRuns.HandOverIsClean | SMD_Control_Server/src/SMD_SocketOps.c:103-116 | the next client finds the session closed and waiting and manual off |
| SessionRuns.HangsUpExactlyWhen | SMD_Control_Server/src/SMD_SocketOps.c:762-768 | a client is hung up on exactly for a line not understood whose answer was written; that line sends nothing, and the next pass releases before any dispatch |
| WireSafety.TypeIsLatest | SMD_Control_Server/src/SMD_Motor_Commands.c:527-540 | over every history STATUS_TYPE_ASSEMBLED_MOVE is the type of the latest recognised profile, across clients and failed uploads |
| WireSafety.RunsOnlyTheLatestProfile | SMD_Control_Server/src/SMD_Motor_Commands.c:629-660 | in every run a run_assembled_move frame has the type of the latest recognised profile, none is sent before the first, and a hold or immediate stop goes out only if the line asks for one |
| WireSafety.NothingRunsBeforeAProfile | SMD_Control_Server/src/SMD_Motor_Commands.c:629-654 | from the start of the server, before any profile of a known type, no line runs one |
| WireSafety.EverythingSentIsInRange | SMD_Control_Server/src/SMD_SocketOps.c:231-649 | every motion frame of every session run is within range, whatever clients send |
| WholeServer.FlagsAgree | SMD_Control_Server/src/SMD_Motor_Commands.c:784 | session and controllers agree on the manual flag in every interleaved run |
| WholeServer.ProjectsToControllers | SMD_Control_Server/src/SMD_Motor_Commands.c:769-922 | every run of session and controllers together is a run of the controllers with the same commands |
| WholeServer.LeavingManualModeIsBounded | SMD_Control_Server/src/SMD_SocketOps.c:667-684 | after stopManualMode, a disconnect or a lost client, while manual mode stays off, each controller sends at most one hold then one jog more, and exits |
| WholeServer.WholeRunIsInRange | SMD_Control_Server/src/SMD_Motor_Commands.c:784-920 | every motion frame from clients and controllers in any interleaving is within range, and no controller command is rejected |
| WholeServer.EveryRunIsGood | SMD_Control_Server/src/SMD_SocketOps.c:91-134 | every run of a freshly started server with its controllers: flags sane and shared, all frames in range, no controller command rejected, every controller reversal safe, the newest alive while manual mode is on |
| WholeServer.CallsAreSafeInWholeRuns | SMD_Control_Server/src/SMD_SocketOps.c:651-684 | in whole runs with such starts, all calls of the controllers are reversal safe exactly when they are at the restarts |
| MotorLog.StepStops | SMD_Control_Server/src/SMD_Modbus.c:159-192 | one event of the client or step of a controller adds a hold or immediate stop to the log exactly when it tries one and a connection that counts comes up |
| MotorLog.NoStopExactlyWhen | SMD_Control_Server/src/SMD_SocketOps.c:91-134 | between two moments of any run no stop is in the log exactly when every stop tried, by the session or a controller, was lost |
| MotorSafety.CleanRunIsCleanStarts | SMD_Control_Server/src/SMD_SocketOps.c:651-656 | in a whole run every start finds the older controllers gone exactly when it is so for the controllers alone |
| MotorSafety.HandedOver | SMD_Control_Server/src/SMD_SocketOps.c:651-684 | between calls of two controllers, one at a time, manual mode ended, unless the first call came after its end |
| MotorSafety.HoldsBetween | SMD_Control_Server/src/SMD_Motor_Commands.c:877-887 | between two jogs of one controller in opposite directions it called for a hold, in every interleaving |
| MotorSafety.ReversalExactlyWhen | SMD_Control_Server/src/SMD_Motor_Commands.c:834-889 | over the log of any run with clean starts: between two jogs in opposite directions no hold or immediate stop of anyone is in the log exactly when no stop tried between them got through and one of three things is behind it: a lost hold of the one controller; manual mode ended without a delivered stop; the first jog went out after its end |
| MotorSafety.MotorNeverReversesUnstopped | SMD_Control_Server/src/SMD_Motor_Commands.c:834-889 | with clean starts, holds that get through, manual mode ended only by stops that get through, and no jog after its end, the motor never hears opposite jogs without a stop between |
| MotorInputs.LostHold | SMD_Control_Server/src/SMD_Motor_Commands.c:877-887 | the input for the first: a run of the server whose log is a jog one way and a jog the other |
| MotorInputs.LostClient | SMD_Control_Server/src/SMD_SocketOps.c:103-116 | the input for the second: the client is lost while the motor runs, the next one starts manual mode |
| MotorInputs.LateJog | SMD_Control_Server/src/SMD_SocketOps.c:667-684 | the input for the third: stop by stopManualMode, then a jog already decided, then a restart the other way |
| MotorSafety.MotorFollowsExactlyWhen | SMD_Control_Server/src/SMD_Motor_Commands.c:820-891 | the motion the calls in the log amount to is the last valid sample exactly when it is that of all calls, and always when the last call got through |
| MotorSafety.LostCallsAreNotRepeated | SMD_Control_Server/src/SMD_Motor_Commands.c:852-891 | a call that was lost is never repeated as long as the samples stay the same |
| EndToEnd.ProgramLineGranted | SMD_Control_Server/src/SMD_SocketOps.c:590-593 | for any drive and any replies: programAssembledMove makes the session wait exactly when both connections come up and the line read on the second says so; what was sent, and what the drive is left with |
| EndToEnd.AcksFit | SMD_Control_Server/src/SMD_Motor_Commands.c:599-601 | no acknowledgement text is cut by its 32-byte buffer |
| EndToEnd.AcksReceivedExactlyWhen | SMD_Control_Server/src/SMD_Motor_Commands.c:596-602 | the texts a client received start with acknowledgements 1..m exactly when those numbers were sent first: texts tell numbers apart |
| EndToEnd.ProfileLineUploads | SMD_Control_Server/src/SMD_SocketOps.c:702-719 | for any document of up to 16 leading segments, any drive and any outcomes: when ASSEMBLED_MOVE_ACCEPTED is answered, when the drive then holds n blocks more and when exactly the profile after its old program, and what the acknowledgements the client received tell of it |
| EndToEnd.AnsweredReadsTellAll | SMD_Control_Server/src/SMD_Motor_Commands.c:594-603 | if all reads are answered, the n blocks are there exactly when the client received acknowledgements 1..n-1 |
| EndToEnd.AssembledMoveIsStored | SMD_Control_Server/src/SMD_Motor_Commands.c:456-627 | the whole exchange with nothing lost, to a drive in program mode or not: block by block the stored program carries the fields of the document's members after what the drive held, the move type is the one named, and every message that reaches the client |
| EndToEnd.ProfileMeansFields | SMD_Control_Server/src/SMD_Motor_Commands.c:508-515 | a program that decodes to a profile carries its members' target position and speed, and acceleration, deceleration and jerk modulo 65536 |
| EndToEnd.RefusedProgramResets | SMD_Control_Server/src/SMD_Motor_Commands.c:456-469 | a refused programAssembledMove resets the drive's errors (1024 in register 1024, 32768 in 1025) and leaves the session idle |
| EndToEnd.NoProfileIsRefused | SMD_Control_Server/src/SMD_Motor_Commands.c:488-540 | a text that is no profile, of 1..16 segments and type dwell or blend, is refused with nothing uploaded, the errors reset, the wait over and the move type as it was |
| EndToEnd.GivenUpUploadResets | SMD_Control_Server/src/SMD_SocketOps.c:712-718 | an upload given up resets the errors from where it stopped, and the client is told of the segments acknowledged and of the failure |
| LineEffects.MotionLineReachesTheDrive | SMD_Control_Server/src/SMD_SocketOps.c:231-495 | from the client's word and any 32-bit parameters, in an idle session whose next connection comes up: in range after the cut, one frame goes out, the client is told of success, and register 1024 holds 128 for jogCW, 256 for jogCCW, 32 for homeCW, 64 for homeCCW, 2 for relativeMove, with the parameters in the motion registers, unless one of these is lost; out of range, nothing |
| LineEffects.SettingLineReachesTheDrive | SMD_Control_Server/src/SMD_SocketOps.c:374-588 | saveConfig and the two presets, connected or not: each value in its register, and the six answers |
| LineEffects.RunLineIsGated | SMD_Control_Server/src/SMD_SocketOps.c:595-649 | for every 32-bit number: a dwell line goes out exactly when the latest profile is a dwell and the time is 0..65535, a blend line exactly when it is a blend and the direction modulo 65536 is 0 or 1, with 33280, 32768 or 32784 in register 1025; otherwise it is invalid and does nothing |
| LineEffects.WrongNumberOfParameters | SMD_Control_Server/src/SMD_SocketOps.c:247-252 | a command line with another number of parameters is invalid and does nothing |
| LineEffects.EnableLines | SMD_Control_Server/src/SMD_SocketOps.c:497-506 | driveEnable and driveDisable: registers 1024 and 1025, name in the log, both answers each |
| LineEffects.StopLines | SMD_Control_Server/src/SMD_SocketOps.c:508-517 | holdMove and immedStop, likewise |
| LineEffects.ResetAndLoadLines | SMD_Control_Server/src/SMD_SocketOps.c:519-533 | resetErrors and loadCurrentConfiguration, likewise |
| LineEffects.ResetInManualMode | SMD_Control_Server/src/SMD_SocketOps.c:686-689 | resetErrors in manual mode does the same and manual mode goes on |
| LineEffects.ManualWords | SMD_Control_Server/src/SMD_SocketOps.c:665-698 | in manual mode only stopManualMode ends it, and all words but the three are invalid |
| LineEffects.SessionLines | SMD_Control_Server/src/SMD_SocketOps.c:368-372 | disconnect ends the session without an answer; startManualMode turns manual mode on, and the answer tells whether a thread could be created |
| LineEffects.UnknownExactlyWhen | SMD_Control_Server/src/SMD_SocketOps.c:658-661 | a line is not understood exactly when it has no jog or home word and begins with none of the other seventeen |
| LineEffects.ConnectLineConnects | SMD_Control_Server/src/SMD_SocketOps.c:141-187 | connect with an address takes one attempt, and the answer tells how it went |
| LineEffects.AddressIsTheIp | SMD_Control_Server/src/SMD_SocketOps.c:177-183 | the address is the text between the comma and the newline |
| LineEffects.NotConnecting | SMD_Control_Server/src/SMD_SocketOps.c:147-202 | without a session, another number of tokens or another word is refused |
| LineEffects.ReadLineShowsTheDrive | SMD_Control_Server/src/SMD_SocketOps.c:524-527 | readInputRegisters, in manual mode or not: the status line of the drive with bits 9 and 8 and all other words; or the failure, without a connection; or no answer, if the read fails |
| LineEffects.ConfigLineShowsTheWords | SMD_Control_Server/src/SMD_SocketOps.c:535-539 | readCurrentConfiguration likewise, with its own marks |
| LineEffects.StopLineStops | SMD_Control_Server/src/SMD_SocketOps.c:667-684 | stopManualMode always leaves manual mode; the stop is sent exactly when the first answer other than errno 9 is a connection; the session survives only if the first attempt connected |

## Left out

- Sockets, libmodbus, threads and time: only their outcomes and the order of steps are modelled, not the wire format, sleeps or scheduling.
- JSON parsing; a missing "type" or field, which the code dereferences without a check; duplicate keys beyond member order.
- Memory management, string termination and copying of the drive address (lines 166 and 177-182 of SMD_SocketOps.c); an address that is empty after the cut fails without an attempt, as in the code.
- Stores outside arrays: an index of 16 or more in `segments[i]`, more tokens than cells in the tokeniser, the byte before an empty sample string, the terminator after 16 characters in a 16-byte buffer.
- A register line of fewer than three tokens after a failed read, which the code indexes anyway, is taken as a failure.
- Reuse of a closed descriptor number, reads that split or join lines, and lines longer than one read.
- errno is taken not to be ERANGE before a number is parsed, and long to have 64 bits; overflow of the knob value times 30 is computed exactly.
- Interleaving inside one command or one client line: a frame goes out as a whole, and clearing the manual flag and sending the stop are one step of WholeServer. ManualThreads treats the flag on its own, so its bound does not depend on this.
- The texts of the answers: a code stands for the text its branch writes.
- Drives that depart from the handshake above, and the physical motion.
- main.c, daemonising, logging, the Arduino sketch, the Python example and the build files.
- UploadRuns.CompleteExactlyWhen: says what the stored blocks hold only if the field writes of the segments arrive, because a lost one stores whatever its register held before, of which the client is never told.
- Utilities.TokenizeClientInput: does not store past the end of the array, because that is undefined in C; every caller rules it out with the count.
- Upload.CollectSegments: stores only at indices below 16, because the store past the array is undefined in C.
- ManualController.Controller.ParseSample: the product with the scale is exact, because its overflow is undefined in C.
