/**
 * The acquire command and the instruction it makes: the command validates its
 * duration, discriminator and kernel; the instruction normalises its qubit and
 * slot arguments and derives its occupancy and its channel set.
 */
module AcquireCommands {
  import opened Wrappers
  import opened Errors
  import opened PulseChannels
  import PulseCommands
  import TS = Timeslots
  import Schedules
  import LA = LegacyAcquire

  /**
   * `Acquire`: the base pulse command (named 'acquire') with a discriminator and
   * a kernel. The measurement-option classes it uses are not part of this model;
   * the `Discriminator` and `Kernel` of the older acquire command stand in.
   */
  datatype Acquire = Acquire(command: PulseCommands.PulseCommand, discriminator: LA.Discriminator, kernel: LA.Kernel)

  /** The class name `type(self)` compares. */
  const AcquireKind: string := "Acquire"

  /**
   * `Acquire(duration, discriminator=None, kernel=None)`: the base constructor
   * checks the duration first; then the discriminator, then the kernel, are
   * checked or defaulted. The name 'acquire' is given, so the class counter is
   * not touched and is not an input here.
   */
  function MakeAcquire(duration: PulseCommands.DurationArg, discriminator: LA.ObjectArg<LA.Discriminator>,
                       kernel: LA.ObjectArg<LA.Kernel>): (r: Result<Acquire, Error>)
    ensures duration.NotInt? ==> r == Err(DurationNotInteger)
    ensures duration.IntDuration? && discriminator.WrongType? ==> r == Err(InvalidDiscriminator)
    ensures duration.IntDuration? && !discriminator.WrongType? && kernel.WrongType? ==> r == Err(InvalidKernel)
    ensures r.Ok? <==> duration.IntDuration? && !discriminator.WrongType? && !kernel.WrongType?
    ensures r.Ok? ==> r.value.command == PulseCommands.PulseCommand(AcquireKind, duration.d, "acquire")
    ensures r.Ok? ==> r.value.discriminator == (if discriminator.Given? then discriminator.value else LA.MakeDiscriminator(None, None))
    ensures r.Ok? ==> r.value.kernel == (if kernel.Given? then kernel.value else LA.MakeKernel(None, None))
  {
    var built :- PulseCommands.Construct(AcquireKind, duration, Some("acquire"), 0);
    var disc :- match discriminator
      case Missing => Ok(LA.MakeDiscriminator(None, None))
      case Given(d) => Ok(d)
      case WrongType => Err(InvalidDiscriminator);
    var kern :- match kernel
      case Missing => Ok(LA.MakeKernel(None, None))
      case Given(k) => Ok(k)
      case WrongType => Err(InvalidKernel);
    Ok(Acquire(built.0, disc, kern))
  }

  /** Building an acquire never advances the class counter: its name is always given. */
  lemma AcquireKeepsCounter(duration: PulseCommands.DurationArg, index: nat)
    requires duration.IntDuration?
    ensures PulseCommands.Construct(AcquireKind, duration, Some("acquire"), index).value.1 == index
  {
  }

  /** `Acquire.__eq__`: the same class, an equal kernel and an equal discriminator; the duration is not compared. */
  predicate Eq(a: Acquire, b: Acquire): (r: bool)
    ensures r <==> a.command.kind == b.command.kind && a.kernel == b.kernel && a.discriminator == b.discriminator
  {
    a.command.kind == b.command.kind && a.kernel == b.kernel && a.discriminator == b.discriminator
  }

  /** Two acquires of different durations with default options are equal. */
  lemma EqIgnoresDuration(d1: int, d2: int)
    ensures MakeAcquire(PulseCommands.IntDuration(d1), LA.Missing, LA.Missing).Ok?
    ensures MakeAcquire(PulseCommands.IntDuration(d2), LA.Missing, LA.Missing).Ok?
    ensures Eq(MakeAcquire(PulseCommands.IntDuration(d1), LA.Missing, LA.Missing).value,
               MakeAcquire(PulseCommands.IntDuration(d2), LA.Missing, LA.Missing).value)
  {
  }

  /** Equality of acquires is an equivalence relation. */
  lemma EqIsEquivalence(a: Acquire, b: Acquire, c: Acquire)
    ensures Eq(a, a)
    ensures Eq(a, b) ==> Eq(b, a)
    ensures Eq(a, b) && Eq(b, c) ==> Eq(a, c)
  {
  }

  /** A `Qubit`: its index and its acquire channel `q.acquire`. */
  datatype Qubit = Qubit(index: int, acquire: Channel)

  /** An argument that is either one object or a list of them. */
  datatype OneOrList<T> = One(x: T) | List(xs: seq<T>)

  /** `if isinstance(x, T): x = [x]`. */
  function AsList<T>(a: OneOrList<T>): (r: seq<T>)
    ensures a.One? ==> r == [a.x]
    ensures a.List? ==> r == a.xs
  {
    match a
    case One(x) => [x]
    case List(xs) => xs
  }

  /** The acquire channel of every qubit, in qubit order. */
  function AcquireChannelsOf(qubits: seq<Qubit>): (r: seq<Channel>)
    ensures |r| == |qubits| && forall k :: 0 <= k < |qubits| ==> r[k] == qubits[k].acquire
  {
    seq(|qubits|, k requires 0 <= k < |qubits| => qubits[k].acquire)
  }

  /** One `[0, duration)` timeslot per channel, in order. */
  function SlotsFor(duration: int, chs: seq<Channel>): (r: seq<TS.Timeslot>)
    ensures |r| == |chs| && forall k :: 0 <= k < |chs| ==> r[k] == TS.Timeslot(TS.Interval(0, duration), chs[k])
  {
    seq(|chs|, k requires 0 <= k < |chs| => TS.Timeslot(TS.Interval(0, duration), chs[k]))
  }

  /** An `AcquireInstruction` once built. */
  datatype AcquireInstruction = AcquireInstruction(command: Acquire, acquireChannels: seq<Channel>, memSlots: seq<Channel>,
                                                   regSlots: seq<Channel>, occupancy: seq<TS.Timeslot>)

  /** `if reg_slots:` — `None` and an empty list are falsy, a channel object is truthy. */
  predicate RegSlotsGiven(regSlots: Option<OneOrList<Channel>>) {
    regSlots.Some? && (regSlots.value.One? || regSlots.value.xs != [])
  }

  /**
   * `AcquireInstruction(command, qubits, mem_slots, reg_slots=None)`: single
   * objects become one-element lists; given register slots must match the qubits
   * in number, absent ones become `[]`.
   */
  function MakeInstruction(command: Acquire, qubits: OneOrList<Qubit>, memSlots: OneOrList<Channel>,
                           regSlots: Option<OneOrList<Channel>>): (r: Result<AcquireInstruction, Error>)
    ensures r.Err? <==> RegSlotsGiven(regSlots) && |AsList(regSlots.value)| != |AsList(qubits)|
    ensures r.Err? ==> r.error == RegSlotCountMismatch
    ensures r.Ok? ==> r.value.command == command && r.value.memSlots == AsList(memSlots)
    ensures r.Ok? ==> r.value.regSlots == (if RegSlotsGiven(regSlots) then AsList(regSlots.value) else [])
    ensures r.Ok? ==> r.value.acquireChannels == AcquireChannelsOf(AsList(qubits))
    ensures r.Ok? ==> r.value.occupancy == SlotsFor(command.command.duration, AcquireChannelsOf(AsList(qubits)))
                                           + SlotsFor(command.command.duration, AsList(memSlots))
  {
    var qs := AsList(qubits);
    var mems := AsList(memSlots);
    var regs :- if RegSlotsGiven(regSlots) then
                  if |qs| != |AsList(regSlots.value)| then Err(RegSlotCountMismatch) else Ok(AsList(regSlots.value))
                else Ok([]);
    var acquires := AcquireChannelsOf(qs);
    var d := command.command.duration;
    Ok(AcquireInstruction(command, acquires, mems, regs, SlotsFor(d, acquires) + SlotsFor(d, mems)))
  }

  /** `Acquire.__call__(qubits, mem_slots, reg_slots=None)`: the instruction of this command. */
  function Call(command: Acquire, qubits: OneOrList<Qubit>, memSlots: OneOrList<Channel>,
                regSlots: Option<OneOrList<Channel>>): (r: Result<AcquireInstruction, Error>)
    ensures r == MakeInstruction(command, qubits, memSlots, regSlots)
    ensures r.Ok? ==> r.value.command == command
  {
    MakeInstruction(command, qubits, memSlots, regSlots)
  }

  /** `duration`: the command's duration. */
  function Duration(i: AcquireInstruction): (r: int)
    ensures r == i.command.command.duration
  {
    i.command.command.duration
  }

  /** `channelset`: the set of acquire channels, memory slots and register slots together. */
  function ChannelSet(i: AcquireInstruction): (r: set<Channel>)
    ensures forall c :: c in r <==> c in i.acquireChannels || c in i.memSlots || c in i.regSlots
  {
    set c | c in i.acquireChannels + i.memSlots + i.regSlots
  }

  /**
   * The occupancy puts every acquire channel and memory slot over `[0, duration)`,
   * and no register slot that is not also one of those.
   */
  lemma OccupancyChannels(command: Acquire, qubits: OneOrList<Qubit>, memSlots: OneOrList<Channel>,
                          regSlots: Option<OneOrList<Channel>>)
    requires MakeInstruction(command, qubits, memSlots, regSlots).Ok?
    ensures var i := MakeInstruction(command, qubits, memSlots, regSlots).value;
            (forall c :: c in TS.Channels(i.occupancy) <==> c in i.acquireChannels || c in i.memSlots) &&
            (forall k :: 0 <= k < |i.occupancy| ==> i.occupancy[k].interval == TS.Interval(0, Duration(i))) &&
            TS.Channels(i.occupancy) <= ChannelSet(i) &&
            (forall c :: c in ChannelSet(i) - TS.Channels(i.occupancy) ==> c in i.regSlots)
  {
    var i := MakeInstruction(command, qubits, memSlots, regSlots).value;
    var a, m := i.acquireChannels, i.memSlots;
    var d := Duration(i);
    assert i.occupancy == SlotsFor(d, a) + SlotsFor(d, m);
    forall c ensures c in TS.Channels(i.occupancy) <==> c in a || c in m {
      if c in a {
        var k :| 0 <= k < |a| && a[k] == c;
        assert i.occupancy[k].channel == c;
      }
      if c in m {
        var k :| 0 <= k < |m| && m[k] == c;
        assert i.occupancy[|a| + k].channel == c;
      }
    }
  }

  /** As a schedule leaf, the instruction occupies its acquire channels and memory slots. */
  function AsLeaf(i: AcquireInstruction, register: Channel): (r: Schedules.Schedule)
    requires i.command.command.duration >= 0
    ensures r.Instruction? && r.duration == Duration(i)
  {
    Schedules.Instruction(Some(i.command.command.name), i.command.command.duration, i.acquireChannels + i.memSlots,
                          Schedules.AcquireOp(register))
  }

  /** The leaf's timeslots are exactly the instruction's occupancy. */
  lemma LeafOccupancy(command: Acquire, qubits: OneOrList<Qubit>, memSlots: OneOrList<Channel>,
                      regSlots: Option<OneOrList<Channel>>, register: Channel)
    requires MakeInstruction(command, qubits, memSlots, regSlots).Ok? && command.command.duration >= 0
    ensures var i := MakeInstruction(command, qubits, memSlots, regSlots).value;
            Schedules.TimeslotsOf(AsLeaf(i, register)) == i.occupancy
  {
    var i := MakeInstruction(command, qubits, memSlots, regSlots).value;
    var a, m, d := i.acquireChannels, i.memSlots, command.command.duration;
    assert SlotsFor(d, a + m) == SlotsFor(d, a) + SlotsFor(d, m);
  }
}
