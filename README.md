# Pulse schedules, alignment, the pulse builder and the circuit assembler

This project is a Dafny model of the pulse-scheduling core of qiskit-terra and of the
circuit half of its assembler.

**Schedules.**
- A pulse program is a tree.
  - Its leaves are instructions. An instruction has an integer duration and occupies `[0, duration)` on each of its channels.
  - Its composite nodes are `Schedule`s: ordered children plus one integer `shift`.
- A schedule's occupancy is the list of its children's timeslots, each moved by the shift.
- Building a schedule fails when two of those timeslots overlap on one channel.
- `union`, `shift`, `insert` and `append` build new schedules. `append` places the child
  at the parent's latest stop over the channels the two share.

**Alignment.**
- `push_append` packs a component against a schedule by least slack. `left_align` folds it over a list.
- `right_align` moves every left-aligned instruction to the right by a per-channel amount.
- `align_in_sequence` starts each component at the running duration.
- `align_center` pads the shorter of two pulses with integer half-difference delays.

**The pulse builder.**
- It holds an active block, a root program and a buffered circuit.
- The buffer is compiled and appended to the active block before any call that changes a block.
- Transform contexts swap in a fresh block. On exit they transform it and append it to the restored block.
- `inline`, `phase_offset`, the `acquire` and `call` dispatch and the alignment selection are built on that.

**The command-definition table.** A two-level dictionary: command name, then qubit tuple, then schedule.

**Commands and channels.**
- The base pulse command names unnamed commands from a class-wide counter.
- The acquire command and its instruction normalise their arguments and derive their occupancy.
- The legacy acquire fills in default discriminators and kernels.
- Channels compare by (class, index).

**The assembler.** `assemble_circuits`:
- enumerates qubit and clbit labels register by register;
- maps every instruction's bits to label positions;
- builds the conditional bit mask;
- records the largest counts in the run configuration.

**Modules.** One module per source file:

| module | source file |
|---|---|
| `Schedules` | schedule.py |
| `Ops` | ops.py |
| `Alignment` | alignment.py, with a worked `right_align` instance in `AlignmentExamples` and a colliding one in `RightAlignOverlap` |
| `BuilderSteps` | builder.py, as transition functions on a `State` value |
| `Builder` | builder.py: the `_PulseBuilder` class, whose methods are proved to make exactly those transitions, and the module-level functions |
| `CommandDefinitions` | cmd_def.py |
| `PulseCommands` | pulse_command.py |
| `AcquireCommands` | acquire.py |
| `LegacyAcquire` | _acquire.py |
| `PulseChannels` | pulse_channel.py |
| `Assembler` | assembler.py |

Shared modules:
- `Timeslots` is the timeslot collection. Its class is not part of this model; it is reconstructed from how schedule.py and acquire.py use it.
- `Wrappers` holds `Option`, `Result` and `Outcome`.
- `Errors` holds one error datatype with one constructor per exception the core raises.
- `Strings` renders `'%d'` and `'0x%X'`.
- `Seqs` holds sequence lemmas.

**Mutation and errors.**
- Mutation in place is modelled as reassignment of a field or of a value.
  - `insert(..., mutate=True)` appends the shifted child to the block's own children.
  - The builder's and the table's fields are reassigned by their methods.
- Every raised exception is an `Err` value. When a call raises after changing state, the changed state is returned alongside the error.

Where the code and its documentation disagree, the model follows the code:
- `ch_duration` returns the start time.
- `cmd_qubits` returns the command names.
- `PulseChannel.__str__` returns its template.
- `pop`'s error message raises IndexError.

Each of the first three is also recorded under "Findings", with a corrected definition beside it.

## Model

| member | source | states |
|---|---|---|
| PulseChannels.Eq | qiskit/pulse/channels/pulse_channel.py:14-26 | two channels are equal iff they have the same concrete class and the same index |
| PulseChannels.DifferentKindsDiffer | qiskit/pulse/channels/pulse_channel.py:23-26 | channels of different classes are unequal whatever their indices |
| PulseChannels.DifferentIndicesDiffer | qiskit/pulse/channels/pulse_channel.py:23-26 | channels with different indices are unequal |
| PulseChannels.EqIsEquivalence | qiskit/pulse/channels/pulse_channel.py:14-26 | channel equality is reflexive, symmetric and transitive |
| PulseChannels.EqualChannelsHashEqually | qiskit/pulse/channels/pulse_channel.py:28-30 | equal channels hash equally, for any hash of the (class, index) pair |
| PulseChannels.StrAsWritten | qiskit/pulse/channels/pulse_channel.py:8-9 | as written, `__str__` returns the template `%s%d` itself |
| PulseChannels.NameAsWritten | qiskit/pulse/channels/pulse_channel.py:11-12 | as written, `name()` is `str(self)`, the template |
| PulseChannels.NameAsWrittenCollides | qiskit/pulse/channels/pulse_channel.py:8-12 | as written, two different drive channels get the same name |
| PulseChannels.Str | qiskit/pulse/channels/pulse_channel.py:8-9 | as intended, the string is the class prefix followed by the signed decimal index |
| PulseChannels.Name | qiskit/pulse/channels/pulse_channel.py:11-12 | as intended, `name()` is the prefixed string of the corrected `__str__` |
| PulseChannels.NamesIdentifyIndices | qiskit/pulse/channels/pulse_channel.py:8-12 | as intended, channels of one class with different indices have different names |
| PulseCommands.AutoName | qiskit/pulse/commands/pulse_command.py:39 | the generated name is `p` followed by the decimal counter value |
| PulseCommands.AutoNamesDiffer | qiskit/pulse/commands/pulse_command.py:39 | two generated names are equal iff the counter values are equal |
| PulseCommands.Construct | qiskit/pulse/commands/pulse_command.py:22-40 | a non-int duration raises and nothing else does; a non-empty name is kept with the counter unchanged; otherwise the name is `p<counter>` and the counter moves up by one |
| PulseCommands.CounterMonotone | qiskit/pulse/commands/pulse_command.py:36-40 | the counter never decreases, and it increases exactly when no non-empty name is given |
| PulseCommands.SuccessiveUnnamedDiffer | qiskit/pulse/commands/pulse_command.py:38-40 | two unnamed commands built one after the other get different names |
| PulseCommands.Eq | qiskit/pulse/commands/pulse_command.py:52-66 | two commands are equal iff class, duration and name all agree |
| PulseCommands.EqComparesAllThree | qiskit/pulse/commands/pulse_command.py:62-66 | a difference in any one of class, duration or name makes commands unequal |
| PulseCommands.CommandCounter.constructor | qiskit/pulse/commands/pulse_command.py:38-40 | the class counter starts at 0 |
| PulseCommands.CommandCounter.NewCommand | qiskit/pulse/commands/pulse_command.py:22-50 | the command built and the counter left are those of `Construct`; on error the counter is unchanged |
| PulseCommands.TwoUnnamedCommands | qiskit/pulse/commands/pulse_command.py:38-40 | two unnamed commands from the shared counter are unequal and have different names, and the counter moves up by two |
| LegacyAcquire.MakeDiscriminator | qiskit/pulse/commands/_acquire.py:70-82 | the name defaults to `max_1Q_fidelity`; empty or missing params become `[0, 0]`, others are kept |
| LegacyAcquire.MakeKernel | qiskit/pulse/commands/_acquire.py:88-100 | the name defaults to `boxcar`; empty or missing params become `[]`, others are kept |
| LegacyAcquire.DiscriminatorParamsNonEmpty | qiskit/pulse/commands/_acquire.py:79-82 | a discriminator always has at least one parameter |
| LegacyAcquire.EmptyParamsAreDefaults | qiskit/pulse/commands/_acquire.py:79-100 | an empty parameter list is the same as none |
| LegacyAcquire.MakeAcquire | qiskit/pulse/commands/_acquire.py:19-64 | a wrong-typed discriminator raises first, then a wrong-typed kernel; otherwise the duration is 0, qubit and slots are kept, missing options default |
| LegacyAcquire.DefaultAcquire | qiskit/pulse/commands/_acquire.py:44-64 | with no options the acquire has duration 0, no register slot, and the default discriminator and kernel |
| AcquireCommands.MakeAcquire | qiskit/pulse/commands/acquire.py:24-55 | the duration is checked first, then the discriminator, then the kernel; success iff none is wrong; name `acquire`; missing options default |
| AcquireCommands.AcquireKeepsCounter | qiskit/pulse/commands/acquire.py:39 | building an acquire leaves the unnamed-command counter unchanged |
| AcquireCommands.Eq | qiskit/pulse/commands/acquire.py:57-71 | acquires are equal iff class, kernel and discriminator agree; the duration is not compared |
| AcquireCommands.EqIgnoresDuration | qiskit/pulse/commands/acquire.py:67-71 | two default acquires of any two durations are equal |
| AcquireCommands.EqIsEquivalence | qiskit/pulse/commands/acquire.py:67-71 | acquire equality is an equivalence relation |
| AcquireCommands.AsList | qiskit/pulse/commands/acquire.py:93-96 | a single object becomes a one-element list, a list is kept |
| AcquireCommands.AcquireChannelsOf | qiskit/pulse/commands/acquire.py:105 | the acquire channels are `q.acquire` in qubit order |
| AcquireCommands.MakeInstruction | qiskit/pulse/commands/acquire.py:88-111 | fails iff register slots are given and their number differs from the qubits'; otherwise the lists are normalised, absent register slots become `[]`, and the occupancy is one `[0, duration)` slot per acquire channel then per memory slot |
| AcquireCommands.Call | qiskit/pulse/commands/acquire.py:78-82 | calling an acquire builds the instruction of that command |
| AcquireCommands.Duration | qiskit/pulse/commands/acquire.py:113-115 | the instruction's duration is its command's |
| AcquireCommands.ChannelSet | qiskit/pulse/commands/acquire.py:117-123 | the channel set is the union of acquire channels, memory slots and register slots |
| AcquireCommands.OccupancyChannels | qiskit/pulse/commands/acquire.py:109-123 | the occupied channels are exactly the acquire channels and memory slots, every slot is `[0, duration)`, and only register slots are in the channel set without being occupied |
| AcquireCommands.AsLeaf | qiskit/pulse/commands/acquire.py:105-115 | as a schedule leaf, the instruction keeps its duration |
| AcquireCommands.LeafOccupancy | qiskit/pulse/commands/acquire.py:109-111 | the leaf's timeslots are exactly the instruction's occupancy |
| Timeslots.Shift | qiskit/pulse/schedule.py:46-47 | shifting moves every timeslot by the same time and keeps their number |
| Timeslots.ChannelList | qiskit/pulse/schedule.py:76-83 | the channel list holds each used channel once |
| Timeslots.MinStart | qiskit/pulse/schedule.py:100-109 | the earliest start on the given channels: absent iff they are unused, otherwise attained and a lower bound |
| Timeslots.MaxStop | qiskit/pulse/schedule.py:111-120 | the latest stop on the given channels: absent iff they are unused, otherwise attained and an upper bound |
| Timeslots.ShiftZero | qiskit/pulse/schedule.py:46-47 | a shift by 0 changes nothing, so skipping it when `shift` is 0 is harmless |
| Timeslots.ShiftShift | qiskit/pulse/schedule.py:46-47 | two shifts add up |
| Timeslots.ShiftConcat | qiskit/pulse/schedule.py:43-50 | shifting a concatenation shifts each part |
| Timeslots.ShiftChannelSet | qiskit/pulse/schedule.py:46-47 | shifting keeps the set of channels |
| Timeslots.ShiftChannelList | qiskit/pulse/schedule.py:46-47 | shifting keeps the channel list and its order |
| Timeslots.ConcatChannels | qiskit/pulse/schedule.py:50 | the channels of combined collections are the union of their channels |
| Timeslots.ShiftNoOverlap | qiskit/pulse/schedule.py:46-50 | shifting neither creates nor removes an overlap |
| Timeslots.ConcatNoOverlap | qiskit/pulse/schedule.py:50-54 | combined collections are overlap-free iff each is and no two of their slots collide on a channel |
| Timeslots.ChStopShift | qiskit/pulse/schedule.py:111-120 | shifting moves the latest stop on any channels by the shift |
| Timeslots.ChStartShift | qiskit/pulse/schedule.py:100-109 | shifting moves the earliest start on any channels by the shift |
| Timeslots.MaxStopConcat | qiskit/pulse/schedule.py:111-120 | the latest stop of combined collections is the larger of the two |
| Timeslots.MinStartConcat | qiskit/pulse/schedule.py:100-109 | the earliest start of combined collections is the smaller of the two |
| Schedules.LeafSlots | qiskit/pulse/commands/acquire.py:109-111 | a leaf occupies `[0, duration)` on each of its channels |
| Schedules.Make | qiskit/pulse/schedule.py:28-54 | construction succeeds iff the children's shifted timeslots do not overlap, keeping name, children and shift; otherwise it raises the overlap error |
| Schedules.Init | qiskit/pulse/schedule.py:28-54 | the constructor's loop over the children builds exactly the schedule or the error of `Make`, with `children` the given list in order |
| Schedules.Duration | qiskit/pulse/schedule.py:64-66 | a schedule's duration is its stop time; a leaf's is its own |
| Schedules.StartTime | qiskit/pulse/schedule.py:68-70 | the earliest start of any timeslot, 0 when there is none |
| Schedules.StopTime | qiskit/pulse/schedule.py:72-74 | the latest stop of any timeslot, 0 when there is none |
| Schedules.Channels | qiskit/pulse/schedule.py:76-83 | exactly the channels of the timeslots, each once |
| Schedules.ChStartTime | qiskit/pulse/schedule.py:100-109 | the earliest start on the given channels, a lower bound of every start there, 0 when they are unused |
| Schedules.ChStopTime | qiskit/pulse/schedule.py:111-120 | the latest stop on the given channels, an upper bound of every stop there, 0 when they are unused |
| Schedules.ChDurationAsWritten | qiskit/pulse/schedule.py:89-98 | as written, `ch_duration` returns the channels' start time |
| Schedules.ChDuration | qiskit/pulse/schedule.py:89-98 | as documented, the latest stop on the given channels |
| Schedules.ChDurationReportsStart | qiskit/pulse/schedule.py:89-98 | for a 5-sample pulse the code reports 0 where the documented value is 5 |
| Schedules.Flatten | qiskit/pulse/schedule.py:156-164 | flattening yields only leaves |
| Schedules.FlattenChildren | qiskit/pulse/schedule.py:163-164 | flattening children yields only leaves |
| Schedules.FlattenTimeslots | qiskit/pulse/schedule.py:156-164 | the flattened leaves at their accumulated times cover exactly the schedule's timeslots moved by the start time, so nested shifts add up |
| Schedules.FlattenChildrenTimeslots | qiskit/pulse/schedule.py:163-164 | the children's leaves are flattened at `time + shift`, in child order |
| Schedules.FlattenPair | qiskit/pulse/schedule.py:156-164 | flattening a parent with one shifted child yields the parent's leaves, then the child's moved by the shift |
| Schedules.ChildSlotsSnoc | qiskit/pulse/schedule.py:43-50 | one more child appends its shifted timeslots |
| Schedules.ChildSlotsShift | qiskit/pulse/schedule.py:44-48 | the combined timeslots under a shift are the unshifted ones moved by it |
| Schedules.LeafValid | qiskit/pulse/commands/acquire.py:109-111 | a leaf on distinct channels has no overlap and starts at 0 |
| Schedules.ValidChildren | qiskit/pulse/schedule.py:42-54 | a schedule that was built has children that were built |
| Schedules.SlotsWellFormed | qiskit/pulse/schedule.py:42-50 | every timeslot of a tree with non-negative durations is a proper interval |
| Schedules.StopTimeNonNegative | qiskit/pulse/schedule.py:64-74 | a schedule that starts at non-negative times has a non-negative stop time and duration |
| Ops.Union | qiskit/pulse/ops.py:22-33 | succeeds iff the shifted inputs do not overlap; the children are the inputs in order under one shift; with no name the first input's name is taken |
| Ops.Shift | qiskit/pulse/ops.py:38-48 | wraps the schedule as the only child with the shift, keeping its name by default; the timeslots move by the shift |
| Ops.Insert | qiskit/pulse/ops.py:51-61 | is `union(parent, shift(child, t))`: the parent's timeslots unchanged, then the child's moved by `t`, failing iff they collide |
| Ops.AppendTime | qiskit/pulse/ops.py:77-78 | the latest stop of the parent on the shared channels, 0 when none is shared, attained on one of them |
| Ops.Append | qiskit/pulse/ops.py:64-79 | is `insert` at `AppendTime`, failing iff the moved child collides |
| Ops.AppendStartsAfterParent | qiskit/pulse/ops.py:70-79 | a child starting at non-negative times starts, on every shared channel, no earlier than the parent's content there ends |
| Ops.AppendNeverCollides | qiskit/pulse/ops.py:64-79 | appending a collision-free child that starts at non-negative times never raises |
| Ops.AppendLeafTime | qiskit/pulse/ops.py:77-78 | a one-channel leaf is appended at the parent's stop time on that channel |
| Ops.AppendLeaf | qiskit/pulse/ops.py:64-79 | appending a one-channel leaf gives a collision-free schedule whose last instruction is the leaf at that stop time, which grows by the leaf's duration |
| Ops.AppendLeafElsewhere | qiskit/pulse/ops.py:64-79 | appending a one-channel leaf leaves other channels' stop times unchanged |
| Ops.AppendTwoLeaves | qiskit/pulse/ops.py:64-79 | a second leaf on the same channel lands right after the first |
| Ops.UnionWith | qiskit/pulse/schedule.py:122-128 | `s.union(*others)` has `s` and then the others as children, under `s`'s name |
| Ops.Plus | qiskit/pulse/schedule.py:166-168 | `s + c` is `append(s, c)` |
| Ops.Pipe | qiskit/pulse/schedule.py:170-172 | `s \| c` is `union(s, c)` |
| Ops.LShift | qiskit/pulse/schedule.py:174-176 | `s << t` shifts by `+t` |
| Ops.RShift | qiskit/pulse/schedule.py:178-180 | `s >> t` shifts by `-t` |
| Ops.ShiftBack | qiskit/pulse/schedule.py:174-180 | `(s << t) >> t` never raises and has the same timeslots as `s` |
| Alignment.CommonChannels | qiskit/pulse/alignment.py:36 | exactly the channels both schedules use |
| Alignment.ArgMin | qiskit/pulse/alignment.py:42 | `np.argmin`: the first position of a least element |
| Alignment.PushAppendTime | qiskit/pulse/alignment.py:36-45 | the insert time is 0 with no shared channel, otherwise the largest `ch_stop_time(c) - other.ch_start_time(c)` over the shared channels |
| Alignment.LeastSlackIsGreatestGap | qiskit/pulse/alignment.py:38-43 | the channel of least slack is a shared channel of greatest gap |
| Alignment.PushAppend | qiskit/pulse/alignment.py:25-46 | `this.insert(insert_time, other)`, failing iff the moved component collides |
| Alignment.PushAppendSeparates | qiskit/pulse/alignment.py:38-46 | on every shared channel the moved component starts at or after the end of `this`'s content |
| Alignment.PushAppendNeverCollides | qiskit/pulse/alignment.py:25-46 | pushing collision-free components never raises and gives a collision-free schedule |
| Alignment.LeftAlign | qiskit/pulse/alignment.py:49-62 | `push_append` folded over the inputs from `Schedule()`; no inputs give the empty schedule |
| Alignment.LeftAlignValid | qiskit/pulse/alignment.py:49-62 | left alignment of collision-free components never raises and uses exactly their channels |
| Alignment.LeftAlignSingle | qiskit/pulse/alignment.py:49-62 | left-aligning one component keeps its occupancy |
| Alignment.InsertMut | qiskit/pulse/alignment.py:130 | an in-place insert appends the wrapped, shifted child to the schedule's own children, failing iff it collides |
| Alignment.ChannelStopsMeaning | qiskit/pulse/alignment.py:91-95 | `channel_durations` has a key for each visited channel holding its latest stop |
| Alignment.MaxSpanMeaning | qiskit/pulse/alignment.py:89-96 | `max_duration` is 0 or the largest per-channel span, and bounds every span |
| Alignment.MaxOverMeaning | qiskit/pulse/alignment.py:100 | the generator's `max` is defined iff there are channels and all are keys, and is then their largest value |
| Alignment.PlaceStep | qiskit/pulse/alignment.py:100-102 | one instruction is inserted at `max_duration - instr_max_dur + instr_time`; a failing `max` raises |
| Alignment.PlaceAll | qiskit/pulse/alignment.py:98-104 | placing the remaining instructions keeps the schedule composite, with its name and shift |
| Alignment.PlaceAllChildren | qiskit/pulse/alignment.py:98-104 | every left-aligned instruction becomes, in order, a child shifted to its delayed time |
| Alignment.RightAlign | qiskit/pulse/alignment.py:79-104 | the two loops compute exactly the right-aligned schedule |
| Alignment.MeasureChannels | qiskit/pulse/alignment.py:89-96 | the first loop computes every channel's latest stop and the largest span |
| Alignment.PlaceDelayed | qiskit/pulse/alignment.py:98-104 | the second loop builds exactly the delayed placement |
| AlignmentExamples.RightAlignTwoPulses | qiskit/pulse/alignment.py:79-104 | a 100-sample pulse on d0 and a 20-sample pulse on d1 end together: the short one is placed at 80 |
| RightAlignOverlap.ThreeLeftAligned | qiskit/pulse/alignment.py:49-62 | X (10 on d0), Y (10 on d0 and d1) and Z (5 on d1) left-align to X at 0, Y at 10 and Z at 20 |
| RightAlignOverlap.ThreeMeasured | qiskit/pulse/alignment.py:89-95 | for that schedule `channel_durations` is d0: 20, d1: 25 and `max_duration` is 20 |
| RightAlignOverlap.PlaceYCollides | qiskit/pulse/alignment.py:97-102 | Y's largest channel stop is 25, so it is re-inserted at 20 - 25 + 10 = 5, over X on d0, and the insert raises |
| RightAlignOverlap.RightAlignRaisesOnValidInput | qiskit/pulse/alignment.py:79-104 | three valid components for which `right_align` raises the overlap error |
| Alignment.SequenceStep | qiskit/pulse/alignment.py:130 | one instruction is inserted at the accumulated duration |
| Alignment.SequenceFrom | qiskit/pulse/alignment.py:128-131 | one child is added per component |
| Alignment.AlignInSequence | qiskit/pulse/alignment.py:121-131 | the loop computes exactly the sequenced schedule |
| Alignment.InsertAtDurationIsAfter | qiskit/pulse/alignment.py:130 | a component inserted at the current duration starts after everything already there ends |
| Alignment.SequenceNeverCollides | qiskit/pulse/alignment.py:121-131 | sequencing collision-free components never raises and keeps every start non-negative |
| Alignment.SequenceStepValid | qiskit/pulse/alignment.py:130 | one sequencing step keeps the accumulated schedule collision-free and unshifted |
| Alignment.NamedDelay | qiskit/pulse/alignment.py:177-181 | `'delay' in name` raises when the name is None |
| Alignment.FirstChannel | qiskit/pulse/alignment.py:178 | `channels[0]` raises when the component has no channel |
| Alignment.HalfDifference | qiskit/pulse/alignment.py:170-175 | the shorter pulse's delay is the integer half of the difference, the longer's is 0 |
| Alignment.AlignCenter | qiskit/pulse/alignment.py:164-165 | anything but exactly two components raises |
| Alignment.AlignCenterPlainBranch | qiskit/pulse/alignment.py:185-195 | two components not named as delays take the ordinary branch |
| Alignment.ShorterSecondBranch | qiskit/pulse/alignment.py:168-195 | with the first pulse at least as long, the first gets no padding |
| Alignment.AlignCenterShorterSecond | qiskit/pulse/alignment.py:156-196 | two plain pulses on different channels, the second shorter by at least 2: the result is the longer pulse at 0 and the shorter one between two delays of the half-difference |
| Alignment.CenteredSecondInstructions | qiskit/pulse/alignment.py:186-195 | that schedule's instructions are the delay and the long pulse at 0, the short pulse at `k`, then the trailing delay |
| Alignment.LeftBarrier | qiskit/pulse/alignment.py:65-76 | left alignment, then `pad` |
| Alignment.RightBarrier | qiskit/pulse/alignment.py:107-118 | right alignment, then `pad` |
| CommandDefinitions.ToQubitTuple | qiskit/pulse/cmd_def.py:31-39 | an int becomes a one-tuple, an iterable becomes a tuple, and any non-int raises |
| CommandDefinitions.Ints | qiskit/pulse/cmd_def.py:36-39 | the integers of an all-int tuple, in order |
| CommandDefinitions.ScalarIsOneTuple | qiskit/pulse/cmd_def.py:31-34 | `0` and `(0,)` are the same key |
| CommandDefinitions.Wrap | qiskit/pulse/cmd_def.py:93-94 | a plain schedule is stored as a ParameterizedSchedule with its name |
| CommandDefinitions.AddKeepsValid | qiskit/pulse/cmd_def.py:91-95 | storing an entry keeps the key orders in step with the table |
| CommandDefinitions.RemoveKeepsValid | qiskit/pulse/cmd_def.py:163-166 | removing an entry keeps the key orders in step with the table |
| CommandDefinitions.CmdDef.constructor | qiskit/pulse/cmd_def.py:47-54 | a new table is empty |
| CommandDefinitions.CmdDef.Add | qiskit/pulse/cmd_def.py:82-95 | on bad qubits it raises and changes nothing; otherwise the entry is created or overwritten with the wrapped schedule, and all other entries stay |
| CommandDefinitions.CmdDef.AddAll | qiskit/pulse/cmd_def.py:56-58 | every entry's key is split into name and qubits and added; it raises iff some qubits are not ints; on success each key holds the wrapped definition of the last entry with that key, and every earlier entry whose key no entry carries stays as it was |
| CommandDefinitions.AddAllLastWins | qiskit/pulse/cmd_def.py:56-58 | on a fresh table, of two entries with the same key the later one is stored, and an entry with another key is kept |
| CommandDefinitions.CmdDef.Has | qiskit/pulse/cmd_def.py:97-110 | true iff the name is present and the qubit tuple is present under it |
| CommandDefinitions.CmdDef.Get | qiskit/pulse/cmd_def.py:112-134 | a missing entry raises; a present one is bound with the given parameters |
| CommandDefinitions.CmdDef.GetParameters | qiskit/pulse/cmd_def.py:136-152 | a missing entry raises; a present one yields its parameter names |
| CommandDefinitions.CmdDef.Pop | qiskit/pulse/cmd_def.py:154-175 | removes exactly that entry and returns it bound; a missing entry raises the message's IndexError and changes nothing |
| CommandDefinitions.CmdDef.Cmds | qiskit/pulse/cmd_def.py:177-180 | every name in the table, once each |
| CommandDefinitions.CmdDef.CmdQubitsAsWritten | qiskit/pulse/cmd_def.py:182-187 | as written, an unknown name raises and a known one yields the command names |
| CommandDefinitions.CmdDef.CmdQubits | qiskit/pulse/cmd_def.py:182-187 | as documented, an unknown name raises and a known one yields its qubit tuples, once each |
| CommandDefinitions.CmdQubitsListsNames | qiskit/pulse/cmd_def.py:182-185 | after adding only `x` on qubit 0, the code yields `["x"]` where `[(0,)]` is documented |
| CommandDefinitions.AddThenHas | qiskit/pulse/cmd_def.py:91-108 | after `add`, `has` is true and `get` binds the stored wrapper |
| CommandDefinitions.PopThenHasNot | qiskit/pulse/cmd_def.py:163-166 | after `pop`, `has` is false for that entry, every other entry is unchanged, and the name stays |
| BuilderSteps.NewCircuit | qiskit/pulse/builder.py:413-415 | a new buffer is an empty circuit as wide as the backend |
| BuilderSteps.Extend | qiskit/pulse/builder.py:441-444 | extending appends the other circuit's operations |
| BuilderSteps.Flush | qiskit/pulse/builder.py:390-411 | a missing or empty buffer changes nothing; otherwise the buffer becomes a fresh circuit and the compiled schedule is appended to the active block; nothing is left pending |
| BuilderSteps.FlushIdempotent | qiskit/pulse/builder.py:390-407 | a second flush does nothing |
| BuilderSteps.FlushAppendsCompiled | qiskit/pulse/builder.py:395-407 | a successful flush appends the compiled schedule's leaves to the block and leaves a fresh buffer |
| BuilderSteps.MutatorsFlushFirst | qiskit/pulse/builder.py:363-388 | `compile`, `set_active_block` and `append_block` leave nothing pending and act as on the flushed state; a failing flush is their result |
| BuilderSteps.AppendMut | qiskit/pulse/builder.py:383-388 | the in-place append keeps the block collision-free or raises the overlap error |
| BuilderSteps.AppendMutInstructions | qiskit/pulse/builder.py:383-388 | the block's leaves are followed by the child's, moved to where it lands |
| BuilderSteps.AppendBlockUnpending | qiskit/pulse/builder.py:380-388 | with nothing pending, appending is the in-place append alone |
| BuilderSteps.CallCircuitNeedsBackend | qiskit/pulse/builder.py:230-241 | without a backend `call_circuit` raises BackendNotSet and changes nothing |
| BuilderSteps.LazyCallBuffers | qiskit/pulse/builder.py:437-441 | a lazy call only extends the buffer (created if absent) |
| BuilderSteps.EagerCallCompiles | qiskit/pulse/builder.py:442-445 | an eager call compiles at once and leaves a fresh buffer |
| BuilderSteps.EnterSwapsInEmpty | qiskit/pulse/builder.py:728-731 | entering a transform context saves the block and makes a fresh one active |
| BuilderSteps.ExitRestoresAndAppends | qiskit/pulse/builder.py:734-741 | leaving restores the saved block and appends the transformed block to it; if that append raises, the saved block is still active |
| BuilderSteps.AppendEachLeaves | qiskit/pulse/builder.py:921-922 | appending instructions one by one puts them after the block's leaves, in order |
| BuilderSteps.AppendEach | qiskit/pulse/builder.py:921-922 | appending instructions one after the other keeps the builder state well-formed |
| BuilderSteps.AppendEachStops | qiskit/pulse/builder.py:921-922 | once one append raises, the later ones are not attempted |
| BuilderSteps.InlineAppendsInOrder | qiskit/pulse/builder.py:912-922 | leaving `inline` restores the outer block and appends the inner block's leaves to it in order |
| BuilderSteps.Align | qiskit/pulse/builder.py:825-848 | "left", "right" and "sequential" select the three policies; any other name raises |
| BuilderSteps.AlignSelectsByName | qiskit/pulse/builder.py:840-848 | every policy is selected by its own name and only by it |
| BuilderSteps.AcquireChannelOf | qiskit/pulse/builder.py:1267-1268 | an int becomes `AcquireChannel(int)` |
| BuilderSteps.AcquireLeaf | qiskit/pulse/builder.py:1270-1278 | a memory slot is the acquire's `mem_slot`, a register slot its `reg_slot`, any other register raises |
| BuilderSteps.Call | qiskit/pulse/builder.py:1482-1488 | a circuit is called lazily, a schedule is appended, any other target raises |
| BuilderSteps.ShiftPhaseLeaf | qiskit/pulse/builder.py:1367 | a phase shift is a zero-length instruction on its channel |
| BuilderSteps.AppendLeafFacts | qiskit/pulse/builder.py:386-388 | appending a one-channel leaf puts it last, at its channel's stop time, which grows by its duration |
| BuilderSteps.PhaseOffsetAroundPulse | qiskit/pulse/builder.py:1036-1040 | one pulse inside `phase_offset` gives three instructions: the shift, the pulse, then the inverse shift after it |
| Builder.PulseBuilder.constructor | qiskit/pulse/builder.py:247-301 | missing settings become `{}`, a missing schedule becomes `Schedule()`, the active block is a fresh schedule and nothing is buffered |
| Builder.PulseBuilder.CompileLazyCircuit | qiskit/pulse/builder.py:390-411 | makes exactly the `Flush` transition |
| Builder.PulseBuilder.SetActiveBlock | qiskit/pulse/builder.py:374-378 | flushes, then sets the block |
| Builder.PulseBuilder.AppendBlock | qiskit/pulse/builder.py:380-383 | flushes, then appends in place |
| Builder.PulseBuilder.AppendInstruction | qiskit/pulse/builder.py:385-388 | flushes, then appends the instruction in place |
| Builder.PulseBuilder.Compile | qiskit/pulse/builder.py:363-372 | flushes, appends the block without directives to the root, starts a fresh block and returns the root |
| Builder.PulseBuilder.CallCircuit | qiskit/pulse/builder.py:417-445 | makes exactly the `CallCircuit` transition |
| Builder.PulseBuilder.EnterTransform | qiskit/pulse/builder.py:728-731 | saves the block and sets a fresh one |
| Builder.PulseBuilder.ExitTransform | qiskit/pulse/builder.py:734-741 | flushes, transforms, restores and appends |
| Builder.PulseBuilder.ExitInline | qiskit/pulse/builder.py:918-922 | flushes, restores, then appends the inner instructions one by one |
| Builder.PulseBuilder.AppendEachInstruction | qiskit/pulse/builder.py:921-922 | the loop makes exactly the `AppendEach` transition |
| Builder.PulseBuilder.Enter | qiskit/pulse/builder.py:303-312 | enters the default alignment context and returns the root schedule |
| Builder.PulseBuilder.Exit | qiskit/pulse/builder.py:314-319 | flushes, leaves the default alignment context, then compiles |
| Builder.ActiveBuilder | qiskit/pulse/builder.py:534-550 | outside a builder context the call raises NoActiveBuilder |
| Builder.AppendInstructionIn | qiskit/pulse/builder.py:576-591 | raises NoActiveBuilder outside a context, else appends to the active builder |
| Builder.AppendLeafIn | qiskit/pulse/builder.py:576-591 | appending a one-channel leaf at its channel's stop time never raises, puts it last at that time, and advances that channel's stop by its duration |
| Builder.ShiftPhaseIn | qiskit/pulse/builder.py:1347-1367 | appends a phase-shift instruction |
| Builder.AcquireIn | qiskit/pulse/builder.py:1230-1278 | an unsupported register raises before anything changes; otherwise the acquire is appended |
| Builder.CallIn | qiskit/pulse/builder.py:1453-1488 | an unsupported target raises; otherwise the call dispatches on the active builder |
| Builder.PhaseOffsetEnter | qiskit/pulse/builder.py:1036 | entering `phase_offset` appends `shift_phase(phase)` |
| Builder.PhaseOffsetExit | qiskit/pulse/builder.py:1039-1040 | leaving it appends `shift_phase(-phase)` |
| Builder.PhaseOffsetAroundPulseIn | qiskit/pulse/builder.py:1036-1040 | on the builder object, one pulse inside `phase_offset` gives the shift, the pulse and the inverse shift after it |
| Assembler.AsList | qiskit/compiler/assembler.py:41-42 | a single circuit is wrapped in a list |
| Assembler.RegisterLabels | qiskit/compiler/assembler.py:59-65 | a register's labels are `[name, j]` for `j` from 0 |
| Assembler.Sizes | qiskit/compiler/assembler.py:58-63 | one `[name, size]` entry per register, in order |
| Assembler.LabelsLength | qiskit/compiler/assembler.py:57-66 | the number of labels is the sum of the register sizes |
| Assembler.LabelAt | qiskit/compiler/assembler.py:57-65 | register `i`'s bit `j` is labelled `[name, j]` after all the earlier registers' bits |
| Assembler.LabelsDistinct | qiskit/compiler/assembler.py:57-65 | registers with distinct names give labels without repetition |
| Assembler.EnumerateRegisters | qiskit/compiler/assembler.py:55-66 | the nested loops produce exactly the labels, the size entries and their sum |
| Assembler.IndexOf | qiskit/compiler/assembler.py:84-88 | `list.index`: the first position, absent (ValueError) iff the label is missing |
| Assembler.Positions | qiskit/compiler/assembler.py:83-90 | succeeds iff every bit has a label; then each position is the first position of that bit's label |
| Assembler.PositionOfRegisterBit | qiskit/compiler/assembler.py:83-90 | with distinct register names, bit `j` of register `i` is at the total size of the registers before `i`, plus `j` |
| Assembler.OptionalPositions | qiskit/compiler/assembler.py:83-90 | the attribute is set only for non-empty bit lists |
| Assembler.ComputeMask | qiskit/compiler/assembler.py:106-110 | the mask loop computes the number whose set bits are the positions of the control register's labels |
| Assembler.MaskOfDistinctLabels | qiskit/compiler/assembler.py:106-110 | with labels without repetition, bit `i` is set iff label `i` belongs to the control register |
| Assembler.MaskBitsInRegister | qiskit/compiler/assembler.py:106-110 | whatever the labels, a set bit is a label of the control register |
| Assembler.AssembleInstruction | qiskit/compiler/assembler.py:80-116 | setting the attributes one after the other builds exactly the instruction of `InstructionFor` |
| Assembler.InstructionMeaning | qiskit/compiler/assembler.py:82-114 | the name is kept; `qubits`/`memory` are present iff there are qargs/cargs and hold their label positions; a snapshot takes `params[0]` and `params[1]`; a conditional has the mask and the control value in hex and type `equals` |
| Assembler.InstructionErrors | qiskit/compiler/assembler.py:83-105 | an instruction fails iff a bit has no label (ValueError) or a snapshot has fewer than two params (IndexError) |
| Assembler.InstructionsFor | qiskit/compiler/assembler.py:80-116 | one assembled instruction per operation, in order |
| Assembler.InstructionsAllOk | qiskit/compiler/assembler.py:81-116 | when every operation assembles, the instruction list is theirs in order |
| Assembler.InstructionsStopAt | qiskit/compiler/assembler.py:81-116 | the first operation that fails decides the error of the whole circuit |
| Assembler.AssembleExperiment | qiskit/compiler/assembler.py:48-118 | the loop body over one circuit builds exactly its experiment |
| Assembler.ExperimentHeader | qiskit/compiler/assembler.py:57-78 | the header keeps the circuit name; both counts equal the label counts and the size sums, in header and config alike; there is one instruction per operation |
| Assembler.ConditionalMask | qiskit/compiler/assembler.py:106-114 | in a circuit whose classical registers have distinct names, the mask selects exactly the control register's clbits |
| Assembler.ExperimentsFor | qiskit/compiler/assembler.py:48-118 | one experiment per circuit, in order |
| Assembler.ExperimentsAllOk | qiskit/compiler/assembler.py:48-118 | when every circuit assembles, the experiments are theirs in order |
| Assembler.ExperimentsStopAt | qiskit/compiler/assembler.py:48-118 | the first circuit that fails decides the error of the assembly |
| Assembler.FirstFailure | qiskit/compiler/assembler.py:48-118 | if any circuit fails, the assembly fails |
| Assembler.AssembledStep | qiskit/compiler/assembler.py:117-122 | one circuit more appends its experiment and raises each running maximum to its count when larger |
| Assembler.MaxOfIsMaximum | qiskit/compiler/assembler.py:119-122 | the running maximum bounds every count, is one of them, and is 0 for none |
| Assembler.AssembleCircuits | qiskit/compiler/assembler.py:27-128 | the loop over the circuits computes exactly the assembled experiments and config |
| Assembler.AssembleMeaning | qiskit/compiler/assembler.py:41-118 | assembly succeeds iff every circuit does; then there is one experiment per circuit, in input order |
| Assembler.ConfigMeaning | qiskit/compiler/assembler.py:119-125 | the config counts bound every experiment's counts, are reached by one, and are 0 with no circuits |
| Assembler.AssembleConfig | qiskit/compiler/assembler.py:119-125 | the config holds the maxima of the experiments' qubit and memory-slot counts |
| Assembler.MaximaOfCounts | qiskit/compiler/assembler.py:119-122 | both maxima bound every experiment's counts, are reached by one, and are 0 for no experiments |

## Left out

- `alignment.sprinkle`: it relies on floating-point arithmetic (`int(duration*pt)`) and a fixed shift of 50.
- The `pad` function of `left_barrier` and `right_barrier` comes from a module that is not part of this model. It is a function parameter.
- `assemble_schedules`: it refers to the undefined `lo_freqs`.
- The sympy/numpy conversion of instruction parameters: it is floating-point work. Parameters are kept as their `str()` forms.
- The run configuration's other fields, the qobj header and the random `uuid` qobj id: they are opaque or random. Only the two counts the assembler writes are modelled.
- The circuit compiler (`transpile` then `schedule`), `remove_directives`, the transforms of the alignment contexts and `bind_parameters` are opaque functions passed in.
- The class-wide counter of `PulseCommand` is one `CommandCounter` object passed where it is used.
- The builder's context variable is modelled as a nullable builder argument: the ambient binding is concurrency plumbing.
- Channel lookups on the backend, `measure`/`measure_all`, the gate helpers, `call_gate` and `delay_qubits` depend on the backend and on code that is not part of this model.
- `frequency_offset`: it uses floating-point arithmetic.
- `set_phase` and `shift_frequency` only raise NotImplementedError.
- `_qubits_to_channels` discards the union it computes.
- The setters of the transpiler and scheduler settings and their contexts are not modelled. The settings are fixed at construction.
- `CmdDef.from_defaults` converts backend data with a converter that is not part of this model.
- The plain-`Schedule` branch of `get`, `pop` and `get_parameters` is unreachable after `add`, which wraps every schedule. `Get` states its result only for wrapped entries. `GetParameters` yields no names for a plain entry, where `get_parameters` would raise AttributeError on `parameters`.
- The instruction classes (`Play`, `Delay`, `ShiftPhase`, the new `Acquire`) are not part of this model. Leaves carry a payload tag.
  - The acquire leaf occupies its channel and memory slot and no register slot, as `AcquireInstruction` does.
  - A delay's name is `delay`.
- acquire.py imports `Discriminator` and `Kernel` from a module that is not part of this model. The legacy classes of `_acquire.py` stand in, but only for their constructors.
  - `AcquireCommands.Eq` compares the kernel and the discriminator by value (class, name and parameters). This is how the measurement-option classes that acquire.py imports compare. The stand-in classes of `_acquire.py` define no `__eq__`, so under them Python would compare by identity.
- `LegacyAcquire.MakeDiscriminator`, `LegacyAcquire.MakeKernel`: `None` for `name` stands for an omitted argument and gives the default name. An explicit `name=None`, which `_acquire.py` keeps as `None`, is not expressible.
- pulse_channel.py starts with a stray non-Python character. It is ignored.
- `Alignment.AlignCenterShorterSecond`: the result is proved only for two plain one-channel pulses on different channels, the second shorter by at least 2. The delay branches and the other cases are modelled by `Alignment.AlignCenter` without a closed-form result.
- `Alignment.RightAlign`: the method is proved equal to its specification function. The placement is stated per instruction (`PlaceAllChildren`) and for a worked two-pulse instance. No general no-collision theorem holds: `RightAlignOverlap.RightAlignRaisesOnValidInput` gives three valid components for which `right_align` raises. Moving by the largest channel stop instead of the largest span also collides on that input, so no evidently intended variant is modelled beside it.
- `Alignment.HalfDifference`: `int((d1-d2)/2)` divides as a float and truncates. The model halves exactly in integers, which agrees while the difference is below 2^53.
- `Assembler.ComputeMask`: `mask \|= 1 << index` is accumulated as the sequence of binary digits, and read as a number at the end.
- `Assembler.ConditionalMask`: exact when the classical registers have distinct names, as a circuit's registers do. `MaskBitsInRegister` states the direction that holds for any labels.
- Python integers are unbounded like Dafny's. No wrap-around applies.
- The `mutate=True` append and insert are modelled as a new value reassigned to the field that held the old one. Aliasing of a block between the builder and the caller is not modelled.
- `Builder.PulseBuilder.ExitTransform`, `Builder.PulseBuilder.ExitInline` (and `BuilderSteps.ExitTransform`, `BuilderSteps.ExitInline`): on leaving a context they use the block that is active at exit. builder.py:736 and builder.py:921 use the `transform_block` object made on entry (builder.py:730 and builder.py:914). The two are the same block unless code inside the context calls `set_active_block` or `compile`, which replace the active block; that case is not modelled.
- schedule.py's `insert` (schedule.py:138) has no `mutate` argument, and schedule.py defines no `filter` and no `instructions`. Their meaning is reconstructed from the callers (alignment.py:93-102, builder.py:370-388 and builder.py:921):
  - `insert(..., mutate=True)` appends the shifted child to the block's own children;
  - `filter(channels=[c])` keeps the timeslots on `c`;
  - `instructions` lists the `(time, instruction)` leaves in insertion order, without sorting by start time. That order decides where `inline` re-appends instructions and the order of `right_align`'s second loop.
- A leaf's `duration` is a `nat`. `PulseCommands.Construct` accepts any int duration, including a negative one. A schedule holding a negative-duration leaf is not modelled.

## Findings

| source | as written | input that shows it | evidently intended | confidence | as-written member | corrected member |
|---|---|---|---|---|---|---|
| qiskit/pulse/schedule.py:89-98 | `ch_duration` returns `ch_start_time` | a 5-sample pulse on d0: `ch_duration(d0)` is 0 | the latest stop time, 5, as the method's name and its `Returns:` line say | not executed | Schedules.ChDurationAsWritten | Schedules.ChDuration |
| qiskit/pulse/cmd_def.py:182-187 | `cmd_qubits` returns `list(self._cmd_dict.keys())`, the command names | a table holding only `x` on qubit 0: `cmd_qubits("x")` is `["x"]` | the qubit tuples of that command, `[(0,)]` | not executed | CommandDefinitions.CmdDef.CmdQubitsAsWritten | CommandDefinitions.CmdDef.CmdQubits |
| qiskit/pulse/channels/pulse_channel.py:8-12 | `'%s%d'.format(prefix, index)` has no `{}` field and returns the template | `DriveChannel(0)` and `DriveChannel(1)` are both named `%s%d` | the class prefix followed by the index, such as `d0` | not executed | PulseChannels.NameAsWritten | PulseChannels.Name |
