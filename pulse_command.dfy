/**
 * The base pulse command: an integer duration and a name. Commands built
 * without a name are numbered from one counter shared by the whole class.
 */
module PulseCommands {
  import opened Wrappers
  import opened Errors
  import Strings

  /** The `duration` argument: an `int`, or a value of any other type. */
  datatype DurationArg = IntDuration(d: int) | NotInt

  /** A command: its concrete class (Python's `type(self)`), `_duration` and `_name`. */
  datatype PulseCommand = PulseCommand(kind: string, duration: int, name: string)

  /** `if name:` — a name counts only when it is given and not empty. */
  predicate Truthy(name: Option<string>) {
    name.Some? && name.value != ""
  }

  /** `'p%d' % index`: the name given to the unnamed command numbered `index`. */
  function AutoName(index: nat): (r: string)
    ensures |r| >= 2 && r[0] == 'p' && r[1..] == Strings.Decimal(index)
  {
    "p" + Strings.Decimal(index)
  }

  /** Different counter values give different automatic names. */
  lemma AutoNamesDiffer(i: nat, j: nat)
    ensures AutoName(i) == AutoName(j) <==> i == j
  {
    if AutoName(i) == AutoName(j) {
      Strings.DigitsInjective(i, j, 10);
    }
  }

  /**
   * `PulseCommand.__init__(duration, name)` started with the class counter at
   * `index`: the new command and the counter afterwards. A non-`int` duration
   * raises before the counter is touched.
   */
  function Construct(kind: string, duration: DurationArg, name: Option<string>, index: nat): (r: Result<(PulseCommand, nat), Error>)
    ensures duration.NotInt? <==> r == Err(DurationNotInteger)
    ensures r.Ok? ==> r.value.0.kind == kind && r.value.0.duration == duration.d
    ensures r.Ok? && Truthy(name) ==> r.value.0.name == name.value && r.value.1 == index
    ensures r.Ok? && !Truthy(name) ==> r.value.0.name == AutoName(index) && r.value.1 == index + 1
  {
    match duration
    case NotInt => Err(DurationNotInteger)
    case IntDuration(d) =>
      if Truthy(name) then Ok((PulseCommand(kind, d, name.value), index))
      else Ok((PulseCommand(kind, d, AutoName(index)), index + 1))
  }

  /** The counter never moves backwards, and moves exactly when a name is generated. */
  lemma CounterMonotone(kind: string, duration: DurationArg, name: Option<string>, index: nat)
    requires Construct(kind, duration, name, index).Ok?
    ensures Construct(kind, duration, name, index).value.1 >= index
    ensures Construct(kind, duration, name, index).value.1 > index <==> !Truthy(name)
  {
  }

  /** Two unnamed commands built one after the other get different names. */
  lemma SuccessiveUnnamedDiffer(kind1: string, d1: int, kind2: string, d2: int, index: nat)
    ensures var first := Construct(kind1, IntDuration(d1), None, index);
            var second := Construct(kind2, IntDuration(d2), None, first.value.1);
            first.value.0.name != second.value.0.name
  {
    AutoNamesDiffer(index, index + 1);
  }

  /** `PulseCommand.__eq__`: the same class, the same duration and the same name. */
  predicate Eq(a: PulseCommand, b: PulseCommand): (r: bool)
    ensures r <==> a == b
  {
    a.kind == b.kind && a.duration == b.duration && a.name == b.name
  }

  /** Commands that differ in any one of class, duration or name are unequal. */
  lemma EqComparesAllThree(a: PulseCommand, b: PulseCommand)
    ensures a.kind != b.kind ==> !Eq(a, b)
    ensures a.duration != b.duration ==> !Eq(a, b)
    ensures a.name != b.name ==> !Eq(a, b)
  {
  }

  /** The class-level counter `PulseCommand.pulseIndex`. */
  class CommandCounter {
    var pulseIndex: nat

    /** The counter as the class defines it: 0. */
    constructor()
      ensures pulseIndex == 0
    {
      pulseIndex := 0;
    }

    /** `PulseCommand.__init__`: validates the duration, then keeps the name or numbers the command. */
    method NewCommand(kind: string, duration: DurationArg, name: Option<string>) returns (r: Result<PulseCommand, Error>)
      modifies this
      ensures var spec := Construct(kind, duration, name, old(pulseIndex));
              (spec.Err? ==> r == Err(spec.error) && pulseIndex == old(pulseIndex)) &&
              (spec.Ok? ==> r == Ok(spec.value.0) && pulseIndex == spec.value.1)
    {
      if duration.NotInt? {
        return Err(DurationNotInteger);
      }
      var d := duration.d;
      var commandName: string;
      if name.Some? && name.value != "" {
        commandName := name.value;
      } else {
        commandName := AutoName(pulseIndex);
        pulseIndex := pulseIndex + 1;
      }
      r := Ok(PulseCommand(kind, d, commandName));
    }
  }

  /** Two unnamed commands built one after the other from the shared counter are named apart. */
  method TwoUnnamedCommands(counter: CommandCounter, kind: string, d1: int, d2: int) returns (a: PulseCommand, b: PulseCommand)
    modifies counter
    ensures a.name != b.name && !Eq(a, b)
    ensures counter.pulseIndex == old(counter.pulseIndex) + 2
  {
    var first := counter.NewCommand(kind, IntDuration(d1), None);
    var second := counter.NewCommand(kind, IntDuration(d2), None);
    AutoNamesDiffer(old(counter.pulseIndex), old(counter.pulseIndex) + 1);
    a, b := first.value, second.value;
  }
}
