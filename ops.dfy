/**
 * The composition algebra on schedules: union, shift, insert and append, and
 * the `Schedule` methods and operators that delegate to them. Every operation
 * builds a new schedule value; inputs are never changed.
 */
module Ops {
  import opened Wrappers
  import opened Errors
  import opened PulseChannels
  import opened Schedules
  import TS = Timeslots

  /** `union(*schedules, shift_time, name)`: one schedule whose children are the inputs; the name defaults to the first input's. */
  function Union(schedules: seq<Schedule>, shiftTime: int, name: Option<string>): (r: Result<Schedule, Error>)
    ensures r.Ok? <==> TS.NoOverlap(ChildSlots(schedules, shiftTime))
    ensures r.Ok? ==> r.value.Composite? && r.value.children == schedules && r.value.shift == shiftTime
    ensures r.Ok? && name.Some? ==> r.value.name == name
    ensures r.Ok? && name.None? && |schedules| > 0 ==> r.value.name == schedules[0].name
    ensures r.Ok? && name.None? && |schedules| == 0 ==> r.value.name == None
    ensures r.Err? ==> r.error == ScheduleOverlap
  {
    var name' := if name.None? && |schedules| > 0 then schedules[0].name else name;
    Make(schedules, shiftTime, name')
  }

  /** `shift(schedule, time, name)`: the schedule wrapped as the only child with shift `time`; the name defaults to its own. */
  function Shift(s: Schedule, time: int, name: Option<string>): (r: Result<Schedule, Error>)
    ensures r.Ok? <==> Valid(s)
    ensures r.Ok? ==> r.value == Composite(if name.None? then s.name else name, [s], time)
    ensures r.Ok? ==> TimeslotsOf(r.value) == TS.Shift(TimeslotsOf(s), time)
    ensures r.Err? ==> r.error == ScheduleOverlap
  {
    var name' := if name.None? then s.name else name;
    SingleSlots(s, time);
    ChildPieceIsShift(s, time);
    TS.ShiftNoOverlap(TimeslotsOf(s), time);
    Make([s], time, name')
  }

  /** The occupancy of a one-child composite. */
  lemma SingleSlots(a: Schedule, sh: int)
    ensures ChildSlots([a], sh) == ChildPiece(a, sh)
  {
    ChildSlotsSnoc([], a, sh);
    assert [] + [a] == [a];
  }

  /** The occupancy of a two-child composite with shift 0. */
  lemma PairSlots(a: Schedule, b: Schedule)
    ensures ChildSlots([a, b], 0) == TimeslotsOf(a) + TimeslotsOf(b)
  {
    SingleSlots(a, 0);
    ChildSlotsSnoc([a], b, 0);
    assert [a] + [b] == [a, b];
  }

  /**
   * `insert(parent, start_time, child, name)`: `union(parent, shift(child, start_time))`;
   * the parent's occupancy is kept and the child's moves by `start_time`.
   */
  function Insert(parent: Schedule, startTime: int, child: Schedule, name: Option<string>): (r: Result<Schedule, Error>)
    ensures r.Ok? <==> Valid(child) && TS.NoOverlap(TimeslotsOf(parent) + TS.Shift(TimeslotsOf(child), startTime))
    ensures r.Ok? ==> r.value == Composite(if name.None? then parent.name else name,
                                           [parent, Composite(child.name, [child], startTime)], 0)
    ensures r.Ok? ==> TimeslotsOf(r.value) == TimeslotsOf(parent) + TS.Shift(TimeslotsOf(child), startTime)
    ensures r.Err? ==> r.error == ScheduleOverlap
  {
    var shifted :- Shift(child, startTime, None);
    PairSlots(parent, shifted);
    Union([parent, shifted], 0, name)
  }

  /** The time at which `append` inserts: the parent's latest stop over the channels both use (0 when none). */
  function AppendTime(parent: Schedule, child: Schedule): (t: int)
    ensures (ChannelSet(parent) * ChannelSet(child) == {}) ==> t == 0
    ensures forall k :: 0 <= k < |TimeslotsOf(parent)| && TimeslotsOf(parent)[k].channel in ChannelSet(child) ==>
              TimeslotsOf(parent)[k].interval.stop <= t
    ensures ChannelSet(parent) * ChannelSet(child) != {} ==>
              exists k :: 0 <= k < |TimeslotsOf(parent)| && TimeslotsOf(parent)[k].channel in ChannelSet(child) &&
                          TimeslotsOf(parent)[k].interval.stop == t
  {
    var common := ChannelSet(parent) * ChannelSet(child);
    var ts := TimeslotsOf(parent);
    assert forall k :: 0 <= k < |ts| && ts[k].channel in ChannelSet(child) ==> ts[k].channel in common;
    CommonUsed(parent, child);
    ChStopTime(parent, common)
  }

  /** A channel both schedules use is the channel of one of the parent's slots. */
  lemma CommonUsed(parent: Schedule, child: Schedule)
    ensures ChannelSet(parent) * ChannelSet(child) != {} ==>
              exists k :: 0 <= k < |TimeslotsOf(parent)| && TimeslotsOf(parent)[k].channel in ChannelSet(parent) * ChannelSet(child)
  {
    var common, ts := ChannelSet(parent) * ChannelSet(child), TimeslotsOf(parent);
    if common != {} {
      var c :| c in common;
      assert c in TS.Channels(ts);
      var k :| 0 <= k < |ts| && ts[k].channel == c;
      assert TimeslotsOf(parent)[k].channel in ChannelSet(parent) * ChannelSet(child);
    }
  }

  /** `append(parent, child, name)`: insert the child at `AppendTime(parent, child)`. */
  function Append(parent: Schedule, child: Schedule, name: Option<string>): (r: Result<Schedule, Error>)
    ensures r.Ok? <==> Valid(child) && TS.NoOverlap(TimeslotsOf(parent) + TS.Shift(TimeslotsOf(child), AppendTime(parent, child)))
    ensures r.Ok? ==> r.value == Composite(if name.None? then parent.name else name,
                                           [parent, Composite(child.name, [child], AppendTime(parent, child))], 0)
    ensures r.Ok? ==> TimeslotsOf(r.value) == TimeslotsOf(parent) + TS.Shift(TimeslotsOf(child), AppendTime(parent, child))
    ensures r.Err? ==> r.error == ScheduleOverlap
  {
    Insert(parent, AppendTime(parent, child), child, name)
  }

  /**
   * When the child starts at non-negative times, every slot of the appended child
   * on a channel the parent uses starts no earlier than every parent slot on it.
   */
  lemma AppendStartsAfterParent(parent: Schedule, child: Schedule)
    requires TS.StartsNonNegative(TimeslotsOf(child))
    ensures var ps, cs := TimeslotsOf(parent), TS.Shift(TimeslotsOf(child), AppendTime(parent, child));
            forall i, j :: 0 <= i < |ps| && 0 <= j < |cs| && ps[i].channel == cs[j].channel ==>
              ps[i].interval.stop <= cs[j].interval.start
  {
    var ps, t := TimeslotsOf(parent), AppendTime(parent, child);
    var cs := TS.Shift(TimeslotsOf(child), t);
    forall i, j | 0 <= i < |ps| && 0 <= j < |cs| && ps[i].channel == cs[j].channel
      ensures ps[i].interval.stop <= cs[j].interval.start
    {
      assert cs[j].channel == TimeslotsOf(child)[j].channel;
      assert ps[i].channel in ChannelSet(child);
    }
  }

  /** Appending a collision-free child that starts at non-negative times to a collision-free parent never fails. */
  lemma AppendNeverCollides(parent: Schedule, child: Schedule, name: Option<string>)
    requires Valid(parent) && Valid(child) && TS.StartsNonNegative(TimeslotsOf(child))
    ensures Append(parent, child, name).Ok?
  {
    var ps, t := TimeslotsOf(parent), AppendTime(parent, child);
    var cs := TS.Shift(TimeslotsOf(child), t);
    AppendStartsAfterParent(parent, child);
    TS.ShiftNoOverlap(TimeslotsOf(child), t);
    TS.ConcatNoOverlap(ps, cs);
  }

  /** A leaf on one channel is appended at the parent's stop time on that channel (0 when the parent leaves it unused). */
  lemma AppendLeafTime(parent: Schedule, leaf: Schedule, c: Channel)
    requires leaf.Instruction? && leaf.channels == [c]
    ensures AppendTime(parent, leaf) == ChStopTime(parent, {c})
  {
    var ls := TimeslotsOf(leaf);
    assert ls[0].channel == c;
    assert ChannelSet(leaf) == {c};
    var common := ChannelSet(parent) * ChannelSet(leaf);
    if c in ChannelSet(parent) {
      assert common == {c};
    } else {
      assert common == {};
      var ps := TimeslotsOf(parent);
      assert forall k :: 0 <= k < |ps| ==> ps[k].channel != c;
    }
  }

  /** The stop time, on one channel, of a parent followed by a leaf on channel `c` placed at time `t`. */
  lemma LeafStop(ps: seq<TS.Timeslot>, leaf: Schedule, c: Channel, t: int, x: Channel)
    requires leaf.Instruction? && leaf.channels == [c]
    ensures x == c ==> TS.MaxStop(ps + TS.Shift(TimeslotsOf(leaf), t), {x}) ==
                       TS.OMax(TS.MaxStop(ps, {x}), Some(t + leaf.duration))
    ensures x != c ==> TS.MaxStop(ps + TS.Shift(TimeslotsOf(leaf), t), {x}) == TS.MaxStop(ps, {x})
  {
    var ls := TS.Shift(TimeslotsOf(leaf), t);
    assert ls == [TS.Timeslot(TS.Interval(t, t + leaf.duration), c)];
    assert ls[1..] == [];
    TS.MaxStopConcat(ps, ls, {x});
  }

  /**
   * `parent + leaf` for a one-channel leaf and a collision-free parent: it succeeds,
   * the leaf lands at the parent's stop time on its channel (it is the last of the
   * flattened instructions), and that channel's stop time grows by the leaf's duration.
   */
  lemma AppendLeaf(parent: Schedule, leaf: Schedule, c: Channel) returns (next: Schedule)
    requires Valid(parent) && leaf.Instruction? && leaf.channels == [c]
    ensures Plus(parent, leaf) == Ok(next)
    ensures Valid(next)
    ensures Instructions(next) == Instructions(parent) + [(ChStopTime(parent, {c}), leaf)]
    ensures ChStopTime(next, {c}) == ChStopTime(parent, {c}) + leaf.duration
  {
    var t := ChStopTime(parent, {c});
    AppendLeafTime(parent, leaf, c);
    LeafValid(leaf.name, leaf.duration, leaf.channels, leaf.payload);
    AppendNeverCollides(parent, leaf, None);
    next := Plus(parent, leaf).value;
    StopAfterLeaf(TimeslotsOf(parent), leaf, c, t);
    hide TS.ChStopTime, TS.MaxStop, TS.NoOverlap, Valid;
    FlattenPair(parent, leaf, t, parent.name, leaf.name);
  }

  /** A leaf on `c` placed at `c`'s stop time moves that stop time on by the leaf's duration. */
  lemma StopAfterLeaf(ps: seq<TS.Timeslot>, leaf: Schedule, c: Channel, t: int)
    requires leaf.Instruction? && leaf.channels == [c] && t == TS.ChStopTime(ps, {c})
    ensures TS.ChStopTime(ps + TS.Shift(TimeslotsOf(leaf), t), {c}) == t + leaf.duration
  {
    LeafStop(ps, leaf, c, t, c);
    TS.OMaxAfter(TS.MaxStop(ps, {c}), leaf.duration);
  }

  /** The schedule `append` builds when the child lands at time `t`. */
  function AppendedAt(parent: Schedule, child: Schedule, t: int): Schedule {
    Composite(parent.name, [parent, Composite(child.name, [child], t)], 0)
  }

  /** `parent + leaf` for a one-channel leaf and a collision-free parent is the leaf placed at the parent's stop time on its channel. */
  lemma AppendLeafResult(parent: Schedule, leaf: Schedule, c: Channel, t: int)
    requires Valid(parent) && leaf.Instruction? && leaf.channels == [c] && ChStopTime(parent, {c}) == t
    ensures Plus(parent, leaf) == Ok(AppendedAt(parent, leaf, t))
  {
    var next := AppendLeaf(parent, leaf, c);
    AppendLeafTime(parent, leaf, c);
  }

  /** That schedule is collision-free again, and the leaf's channel now stops `leaf.duration` later. */
  lemma AppendLeafShape(parent: Schedule, leaf: Schedule, c: Channel, t: int)
    requires Valid(parent) && leaf.Instruction? && leaf.channels == [c] && ChStopTime(parent, {c}) == t
    ensures Valid(AppendedAt(parent, leaf, t))
    ensures ChStopTime(AppendedAt(parent, leaf, t), {c}) == t + leaf.duration
  {
    var next := AppendLeaf(parent, leaf, c);
    AppendLeafTime(parent, leaf, c);
  }

  /** Two one-channel leaves on the same channel, appended one after the other: the second lands where the first stops. */
  lemma AppendTwoLeaves(parent: Schedule, first: Schedule, second: Schedule, c: Channel, t: int)
    requires Valid(parent) && ChStopTime(parent, {c}) == t
    requires first.Instruction? && first.channels == [c] && second.Instruction? && second.channels == [c]
    ensures Plus(AppendedAt(parent, first, t), second) == Ok(AppendedAt(AppendedAt(parent, first, t), second, t + first.duration))
  {
    hide *;
    AppendLeafShape(parent, first, c, t);
    AppendLeafResult(AppendedAt(parent, first, t), second, c, t + first.duration);
  }

  /** Appending a one-channel leaf leaves the stop time of every other channel as it was. */
  lemma AppendLeafElsewhere(parent: Schedule, leaf: Schedule, c: Channel, t: int, other: Channel)
    requires Valid(parent) && leaf.Instruction? && leaf.channels == [c] && ChStopTime(parent, {c}) == t && other != c
    ensures ChStopTime(AppendedAt(parent, leaf, t), {other}) == ChStopTime(parent, {other})
  {
    AppendLeafResult(parent, leaf, c, t);
    AppendLeafTime(parent, leaf, c);
    LeafStop(TimeslotsOf(parent), leaf, c, t, other);
  }

  // ---------------------------------------------------------------------------
  // `Schedule` methods and operators
  // ---------------------------------------------------------------------------

  /** `self.union(*schedules)`: `self` comes first, so it also gives the name. */
  function UnionWith(self: Schedule, schedules: seq<Schedule>): (r: Result<Schedule, Error>)
    ensures r.Ok? ==> r.value.Composite? && r.value.children == [self] + schedules && r.value.name == self.name && r.value.shift == 0
    ensures r.Ok? <==> TS.NoOverlap(ChildSlots([self] + schedules, 0))
  {
    Union([self] + schedules, 0, None)
  }

  /** `s + c`: `append(s, c)`. */
  function Plus(s: Schedule, c: Schedule): (r: Result<Schedule, Error>)
    ensures r == Append(s, c, None)
  {
    Insert(s, AppendTime(s, c), c, None)
  }

  /** `s | c`: `union(s, c)`. */
  function Pipe(s: Schedule, c: Schedule): (r: Result<Schedule, Error>)
    ensures r == Union([s, c], 0, None)
  {
    assert [s] + [c] == [s, c];
    UnionWith(s, [c])
  }

  /** `s << t`: shift by `+t`. */
  function LShift(s: Schedule, t: int): (r: Result<Schedule, Error>)
    ensures r == Shift(s, t, None)
  {
    Make([s], t, s.name)
  }

  /** `s >> t`: shift by `-t`. */
  function RShift(s: Schedule, t: int): (r: Result<Schedule, Error>)
    ensures r == Shift(s, -t, None)
  {
    Make([s], -t, s.name)
  }

  /** `(s << t) >> t` succeeds for a collision-free `s` and occupies exactly what `s` occupies. */
  lemma ShiftBack(s: Schedule, t: int)
    requires Valid(s)
    ensures LShift(s, t).Ok? && RShift(LShift(s, t).value, t).Ok?
    ensures TimeslotsOf(RShift(LShift(s, t).value, t).value) == TimeslotsOf(s)
  {
    hide Make, TimeslotsOf, TS.Shift, TS.NoOverlap;
    var once := LShift(s, t).value;
    assert TimeslotsOf(once) == TS.Shift(TimeslotsOf(s), t);
    TS.ShiftNoOverlap(TimeslotsOf(s), t);
    var back := RShift(once, t).value;
    assert TimeslotsOf(back) == TS.Shift(TS.Shift(TimeslotsOf(s), t), -t);
    TS.ShiftShift(TimeslotsOf(s), t, -t);
    TS.ShiftZero(TimeslotsOf(s));
  }
}
