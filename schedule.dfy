/**
 * The schedule tree: leaves are instructions, composites hold ordered children
 * and one time shift. A composite's occupancy is the shifted union of its
 * children's occupancy and is checked for collisions when it is built.
 */
module Schedules {
  import opened Wrappers
  import opened Errors
  import opened PulseChannels
  import TS = Timeslots
  import opened Seqs

  /** What a leaf instruction does; the scheduling core only looks at duration and channels. */
  datatype Payload =
    | Play(pulse: string)
    | DelayOp
    | ShiftPhaseOp(phase: real)
    | AcquireOp(register: Channel)
    | SnapshotOp(snapshotLabel: string, snapshotType: string)
    | OtherOp(kind: string)

  /**
   * A schedule component. An `Instruction` occupies [0, duration) on each of its
   * channels; a `Composite` is a `Schedule` with its children and its shift.
   */
  datatype Schedule =
    | Instruction(name: Option<string>, duration: nat, channels: seq<Channel>, payload: Payload)
    | Composite(name: Option<string>, children: seq<Schedule>, shift: int)

  /** `Schedule()`: no children, no shift, no name. */
  const Empty: Schedule := Composite(None, [], 0)

  /** The occupancy of a leaf: [0, duration) on every one of its channels. */
  function LeafSlots(duration: nat, chs: seq<Channel>): (r: seq<TS.Timeslot>)
    ensures |r| == |chs|
    ensures forall k :: 0 <= k < |chs| ==> r[k] == TS.Timeslot(TS.Interval(0, duration), chs[k])
  {
    seq(|chs|, k requires 0 <= k < |chs| => TS.Timeslot(TS.Interval(0, duration), chs[k]))
  }

  /** The `timeslots` of a component. */
  function TimeslotsOf(s: Schedule): seq<TS.Timeslot>
    decreases s, 0
  {
    match s
    case Instruction(_, d, chs, _) => LeafSlots(d, chs)
    case Composite(_, cs, sh) => ChildSlots(cs, sh)
  }

  /** One child's timeslots as its parent combines them: shifted, unless the shift is 0. */
  function ChildPiece(c: Schedule, sh: int): seq<TS.Timeslot>
    decreases c, 1
  {
    if sh != 0 then TS.Shift(TimeslotsOf(c), sh) else TimeslotsOf(c)
  }

  /** The chain of the children's (shifted) timeslots, in child order. */
  function ChildSlots(cs: seq<Schedule>, sh: int): seq<TS.Timeslot>
    decreases cs, 2
  {
    if cs == [] then [] else ChildSlots(cs[..|cs| - 1], sh) + ChildPiece(cs[|cs| - 1], sh)
  }

  /** A component whose occupancy has no collision, which every constructed schedule is. */
  predicate Valid(s: Schedule) {
    TS.NoOverlap(TimeslotsOf(s))
  }

  /** `Schedule(*children, shift=shift, name=name)`: raises when the shifted children collide. */
  function Make(children: seq<Schedule>, shift: int, name: Option<string>): (r: Result<Schedule, Error>)
    ensures r.Ok? <==> TS.NoOverlap(ChildSlots(children, shift))
    ensures r.Ok? ==> r.value == Composite(name, children, shift) && Valid(r.value)
    ensures r.Err? ==> r.error == ScheduleOverlap
  {
    if TS.NoOverlap(ChildSlots(children, shift)) then Ok(Composite(name, children, shift))
    else Err(ScheduleOverlap)
  }

  /**
   * `Schedule.__init__`: collects the children's timeslots one child at a time,
   * shifting each when the shift is not 0, then builds the collision-checked collection.
   */
  method Init(children: seq<Schedule>, shift: int, name: Option<string>) returns (r: Result<Schedule, Error>)
    ensures r.Ok? <==> TS.NoOverlap(ChildSlots(children, shift))
    ensures r.Ok? ==> r.value == Composite(name, children, shift) && r.value.children == children
    ensures r.Err? ==> r.error == ScheduleOverlap
  {
    var timeslots: seq<TS.Timeslot> := [];
    var i := 0;
    while i < |children|
      invariant 0 <= i <= |children|
      invariant timeslots == ChildSlots(children[..i], shift)
    {
      var schedTimeslots := TimeslotsOf(children[i]);
      if shift != 0 {
        schedTimeslots := TS.Shift(schedTimeslots, shift);
      }
      timeslots := timeslots + schedTimeslots;
      PrefixSnoc(children, i);
      i := i + 1;
    }
    PrefixAll(children);
    if TS.NoOverlap(timeslots) {
      r := Ok(Composite(name, children, shift));
    } else {
      r := Err(ScheduleOverlap);
    }
  }

  // ---------------------------------------------------------------------------
  // Read-only properties
  // ---------------------------------------------------------------------------

  /** `children`: the constructor's arguments in their original order (none for a leaf). */
  function Children(s: Schedule): seq<Schedule> {
    if s.Composite? then s.children else []
  }

  /** `duration`: the command duration of a leaf, the collection's duration (its stop time) for a schedule. */
  function Duration(s: Schedule): (r: int)
    ensures s.Composite? ==> r == StopTime(s)
    ensures s.Instruction? ==> r == s.duration
  {
    if s.Instruction? then s.duration else TS.Duration(TimeslotsOf(s))
  }

  /** `start_time`: the earliest start over the whole collection, 0 when it is empty. */
  function StartTime(s: Schedule): (r: int)
    ensures |TimeslotsOf(s)| == 0 ==> r == 0
    ensures forall k :: 0 <= k < |TimeslotsOf(s)| ==> r <= TimeslotsOf(s)[k].interval.start
    ensures |TimeslotsOf(s)| > 0 ==> exists k :: 0 <= k < |TimeslotsOf(s)| && TimeslotsOf(s)[k].interval.start == r
  {
    var ts := TimeslotsOf(s);
    assert forall k :: 0 <= k < |ts| ==> ts[k].channel in TS.Channels(ts);
    TS.StartTime(ts)
  }

  /** `stop_time`: the latest stop over the whole collection, 0 when it is empty. */
  function StopTime(s: Schedule): (r: int)
    ensures |TimeslotsOf(s)| == 0 ==> r == 0
    ensures forall k :: 0 <= k < |TimeslotsOf(s)| ==> TimeslotsOf(s)[k].interval.stop <= r
    ensures |TimeslotsOf(s)| > 0 ==> exists k :: 0 <= k < |TimeslotsOf(s)| && TimeslotsOf(s)[k].interval.stop == r
  {
    var ts := TimeslotsOf(s);
    assert forall k :: 0 <= k < |ts| ==> ts[k].channel in TS.Channels(ts);
    TS.StopTime(ts)
  }

  /** `channels`: every channel of the collection, each once, in order of first use. */
  function Channels(s: Schedule): (r: seq<Channel>)
    ensures forall c :: c in r <==> exists k :: 0 <= k < |TimeslotsOf(s)| && TimeslotsOf(s)[k].channel == c
    ensures Distinct(r)
  {
    var list := TS.ChannelList(TimeslotsOf(s));
    assert forall c :: c in list <==> exists k :: 0 <= k < |TimeslotsOf(s)| && TimeslotsOf(s)[k].channel == c by {
      forall c ensures c in list <==> exists k :: 0 <= k < |TimeslotsOf(s)| && TimeslotsOf(s)[k].channel == c {
        assert c in list <==> c in TS.Channels(TimeslotsOf(s));
      }
    }
    list
  }

  function ChannelSet(s: Schedule): set<Channel> {
    TS.Channels(TimeslotsOf(s))
  }

  /** `ch_start_time(*chs)`: the earliest start on the given channels, 0 when none of them is used. */
  function ChStartTime(s: Schedule, chs: set<Channel>): (r: int)
    ensures (forall k :: 0 <= k < |TimeslotsOf(s)| ==> TimeslotsOf(s)[k].channel !in chs) ==> r == 0
    ensures forall k :: 0 <= k < |TimeslotsOf(s)| && TimeslotsOf(s)[k].channel in chs ==> r <= TimeslotsOf(s)[k].interval.start
    ensures (exists k :: 0 <= k < |TimeslotsOf(s)| && TimeslotsOf(s)[k].channel in chs) ==>
              exists k :: 0 <= k < |TimeslotsOf(s)| && TimeslotsOf(s)[k].channel in chs && TimeslotsOf(s)[k].interval.start == r
  {
    TS.ChStartTime(TimeslotsOf(s), chs)
  }

  /** `ch_stop_time(*chs)`: the latest stop on the given channels, 0 when none of them is used. */
  function ChStopTime(s: Schedule, chs: set<Channel>): (r: int)
    ensures (forall k :: 0 <= k < |TimeslotsOf(s)| ==> TimeslotsOf(s)[k].channel !in chs) ==> r == 0
    ensures forall k :: 0 <= k < |TimeslotsOf(s)| && TimeslotsOf(s)[k].channel in chs ==> TimeslotsOf(s)[k].interval.stop <= r
    ensures (exists k :: 0 <= k < |TimeslotsOf(s)| && TimeslotsOf(s)[k].channel in chs) ==>
              exists k :: 0 <= k < |TimeslotsOf(s)| && TimeslotsOf(s)[k].channel in chs && TimeslotsOf(s)[k].interval.stop == r
  {
    TS.ChStopTime(TimeslotsOf(s), chs)
  }

  /** `ch_duration(*chs)` as written: it returns the start time, not the documented latest stop time. */
  function ChDurationAsWritten(s: Schedule, chs: set<Channel>): (r: int)
    ensures r == ChStartTime(s, chs)
  {
    TS.ChStartTime(TimeslotsOf(s), chs)
  }

  /** `ch_duration(*chs)` as documented: the latest stop time on the given channels. */
  function ChDuration(s: Schedule, chs: set<Channel>): (r: int)
    ensures (forall k :: 0 <= k < |TimeslotsOf(s)| ==> TimeslotsOf(s)[k].channel !in chs) ==> r == 0
    ensures forall k :: 0 <= k < |TimeslotsOf(s)| && TimeslotsOf(s)[k].channel in chs ==> TimeslotsOf(s)[k].interval.stop <= r
    ensures (exists k :: 0 <= k < |TimeslotsOf(s)| && TimeslotsOf(s)[k].channel in chs) ==>
              exists k :: 0 <= k < |TimeslotsOf(s)| && TimeslotsOf(s)[k].channel in chs && TimeslotsOf(s)[k].interval.stop == r
  {
    ChStopTime(s, chs)
  }

  /** A single 5-sample pulse on one channel: the written `ch_duration` reports 0 where the latest stop is 5. */
  lemma ChDurationReportsStart(d0: Channel)
    ensures ChDurationAsWritten(Instruction(None, 5, [d0], Play("x")), {d0}) == 0
    ensures ChDuration(Instruction(None, 5, [d0], Play("x")), {d0}) == 5
  {
    var leaf := Instruction(None, 5, [d0], Play("x"));
    assert TimeslotsOf(leaf)[0].channel in {d0};
  }

  // ---------------------------------------------------------------------------
  // Flattening
  // ---------------------------------------------------------------------------

  /**
   * `flatten(time)`: the leaves in child order, each paired with its absolute
   * time; a composite passes `time + shift` down, so nested shifts add up.
   */
  function Flatten(s: Schedule, time: int): (r: seq<(int, Schedule)>)
    ensures forall k :: 0 <= k < |r| ==> r[k].1.Instruction?
    decreases s, 1
  {
    match s
    case Instruction(_, _, _, _) => [(time, s)]
    case Composite(_, cs, sh) => FlattenChildren(cs, time + sh)
  }

  function FlattenChildren(cs: seq<Schedule>, time: int): (r: seq<(int, Schedule)>)
    ensures forall k :: 0 <= k < |r| ==> r[k].1.Instruction?
    decreases cs, 2
  {
    if cs == [] then []
    else
      var front, back := FlattenChildren(cs[..|cs| - 1], time), Flatten(cs[|cs| - 1], time);
      assert forall k :: |front| <= k < |front| + |back| ==> (front + back)[k] == back[k - |front|];
      front + back
  }

  /** `instructions`: the flattened (time, leaf) pairs from time 0. */
  function Instructions(s: Schedule): seq<(int, Schedule)> {
    Flatten(s, 0)
  }

  /** The occupancy of a flattened list: each leaf's own timeslots moved to its time. */
  function FlatSlots(fs: seq<(int, Schedule)>): seq<TS.Timeslot> {
    if fs == [] then [] else FlatSlots(fs[..|fs| - 1]) + TS.Shift(TimeslotsOf(fs[|fs| - 1].1), fs[|fs| - 1].0)
  }

  // ---------------------------------------------------------------------------
  // Lemmas
  // ---------------------------------------------------------------------------

  lemma {:induction false} FlatSlotsConcat(a: seq<(int, Schedule)>, b: seq<(int, Schedule)>)
    ensures FlatSlots(a + b) == FlatSlots(a) + FlatSlots(b)
    decreases |b|
  {
    if b == [] {
      assert a + b == a;
    } else {
      hide FlatSlots;
      var front, last := b[..|b| - 1], b[|b| - 1];
      LastSplit(b);
      AppendAssoc(a, front, [last]);
      FlatSlotsSnoc(a + front, last);
      FlatSlotsConcat(a, front);
      FlatSlotsSnoc(front, last);
      AppendAssoc(FlatSlots(a), FlatSlots(front), TS.Shift(TimeslotsOf(last.1), last.0));
    }
  }

  lemma FlatSlotsSnoc(fs: seq<(int, Schedule)>, f: (int, Schedule))
    ensures FlatSlots(fs + [f]) == FlatSlots(fs) + TS.Shift(TimeslotsOf(f.1), f.0)
  {
    assert (fs + [f])[..|fs|] == fs;
  }

  /** Each child's piece is its timeslots shifted by the parent's shift (the `if shift` test changes nothing). */
  lemma ChildPieceIsShift(c: Schedule, sh: int)
    ensures ChildPiece(c, sh) == TS.Shift(TimeslotsOf(c), sh)
  {
    if sh == 0 { TS.ShiftZero(TimeslotsOf(c)); }
  }

  /** Flattening agrees with the occupancy: the leaves at their absolute times occupy exactly the shifted timeslots. */
  lemma {:induction false} FlattenTimeslots(s: Schedule, time: int)
    ensures FlatSlots(Flatten(s, time)) == TS.Shift(TimeslotsOf(s), time)
    decreases s, 1
  {
    match s
    case Instruction(_, _, _, _) =>
      assert Flatten(s, time) == [(time, s)];
      assert [(time, s)][..0] == [];
    case Composite(_, cs, sh) =>
      FlattenChildrenTimeslots(cs, sh, time);
  }

  lemma {:induction false} FlattenChildrenTimeslots(cs: seq<Schedule>, sh: int, time: int)
    ensures FlatSlots(FlattenChildren(cs, time + sh)) == TS.Shift(ChildSlots(cs, sh), time)
    decreases cs, 2
  {
    if cs != [] {
      var front, last := cs[..|cs| - 1], cs[|cs| - 1];
      FlattenChildrenTimeslots(front, sh, time);
      FlattenTimeslots(last, time + sh);
      FlatSlotsConcat(FlattenChildren(front, time + sh), Flatten(last, time + sh));
      ChildPieceIsShift(last, sh);
      TS.ShiftShift(TimeslotsOf(last), sh, time);
      TS.ShiftConcat(ChildSlots(front, sh), ChildPiece(last, sh), time);
    }
  }

  /** Flattening `parent` followed by `child` wrapped at offset `t` lists the parent's leaves, then the child's moved by `t`. */
  lemma FlattenPair(parent: Schedule, child: Schedule, t: int, name: Option<string>, childName: Option<string>)
    ensures Flatten(Composite(name, [parent, Composite(childName, [child], t)], 0), 0) == Flatten(parent, 0) + Flatten(child, t)
  {
    var w := Composite(childName, [child], t);
    assert [parent, w][..1] == [parent];
    assert [parent][..0] == [];
    assert [child][..0] == [];
    assert FlattenChildren([parent], 0) == Flatten(parent, 0);
    assert Flatten(w, 0) == FlattenChildren([child], t) == Flatten(child, t);
  }

  /** The children's combined timeslots are the chain of their own timeslots, shifted as a whole. */
  lemma {:induction false} ChildSlotsShift(cs: seq<Schedule>, sh: int)
    ensures ChildSlots(cs, sh) == TS.Shift(ChildSlots(cs, 0), sh)
    decreases |cs|
  {
    if cs != [] {
      var front, last := cs[..|cs| - 1], cs[|cs| - 1];
      ChildSlotsShift(front, sh);
      ChildPieceIsShift(last, sh);
      TS.ShiftConcat(ChildSlots(front, 0), TimeslotsOf(last), sh);
    }
  }

  /** The combined timeslots of `cs + [c]` are those of `cs` followed by `c`'s piece. */
  lemma ChildSlotsSnoc(cs: seq<Schedule>, c: Schedule, sh: int)
    ensures ChildSlots(cs + [c], sh) == ChildSlots(cs, sh) + ChildPiece(c, sh)
  {
    assert (cs + [c])[..|cs|] == cs;
  }

  /** The combined timeslots of two parts of a child list are the parts' combined timeslots in order. */
  lemma {:induction false} ChildSlotsConcat(a: seq<Schedule>, b: seq<Schedule>, sh: int)
    ensures ChildSlots(a + b, sh) == ChildSlots(a, sh) + ChildSlots(b, sh)
    decreases |b|
  {
    if b == [] {
      assert a + b == a;
    } else {
      hide ChildSlots, ChildPiece;
      var front, last := b[..|b| - 1], b[|b| - 1];
      LastSplit(b);
      AppendAssoc(a, front, [last]);
      ChildSlotsSnoc(a + front, last, sh);
      ChildSlotsConcat(a, front, sh);
      ChildSlotsSnoc(front, last, sh);
      AppendAssoc(ChildSlots(a, sh), ChildSlots(front, sh), ChildPiece(last, sh));
    }
  }

  /** A leaf whose channels are distinct has no collision. */
  lemma LeafValid(name: Option<string>, duration: nat, chs: seq<Channel>, payload: Payload)
    requires Distinct(chs)
    ensures Valid(Instruction(name, duration, chs, payload))
    ensures TS.StartsNonNegative(TimeslotsOf(Instruction(name, duration, chs, payload)))
  {
  }

  /** Every part of a collision-free child list is collision-free. */
  lemma {:induction false} ValidChildren(cs: seq<Schedule>, sh: int)
    requires TS.NoOverlap(ChildSlots(cs, sh))
    ensures forall i :: 0 <= i < |cs| ==> Valid(cs[i])
    decreases |cs|
  {
    if cs != [] {
      var front, last := cs[..|cs| - 1], cs[|cs| - 1];
      TS.ConcatNoOverlap(ChildSlots(front, sh), ChildPiece(last, sh));
      ValidChildren(front, sh);
      ChildPieceIsShift(last, sh);
      TS.ShiftNoOverlap(TimeslotsOf(last), sh);
      forall i | 0 <= i < |cs| ensures Valid(cs[i]) {
        if i < |cs| - 1 { assert cs[i] == front[i]; }
      }
    }
  }

  /** Every interval of every component has its start at or before its stop. */
  lemma {:induction false} SlotsWellFormed(s: Schedule)
    ensures TS.WellFormed(TimeslotsOf(s))
    decreases s, 0
  {
    match s
    case Instruction(_, _, _, _) =>
    case Composite(_, cs, sh) => ChildSlotsWellFormed(cs, sh);
  }

  lemma {:induction false} ChildSlotsWellFormed(cs: seq<Schedule>, sh: int)
    ensures TS.WellFormed(ChildSlots(cs, sh))
    decreases cs, 2
  {
    if cs != [] {
      ChildSlotsWellFormed(cs[..|cs| - 1], sh);
      SlotsWellFormed(cs[|cs| - 1]);
      ChildPieceIsShift(cs[|cs| - 1], sh);
    }
  }

  /** A collection whose slots all start at non-negative times has a non-negative stop time. */
  lemma StopTimeNonNegative(s: Schedule)
    requires TS.StartsNonNegative(TimeslotsOf(s))
    ensures 0 <= StopTime(s) && 0 <= Duration(s)
  {
    SlotsWellFormed(s);
  }
}
