/**
 * Alignment policies: packing by smallest slack (`push_append`), left, right,
 * sequential and centred alignment of a list of schedule components.
 */
module Alignment {
  import opened Wrappers
  import opened Errors
  import opened PulseChannels
  import opened Schedules
  import Ops
  import TS = Timeslots
  import opened Seqs

  // ---------------------------------------------------------------------------
  // push_append
  // ---------------------------------------------------------------------------

  /** The channels of `this` that `other` also uses, in `this`'s channel order. */
  function CommonChannels(base: Schedule, other: Schedule): (r: seq<Channel>)
    ensures forall c :: c in r <==> c in ChannelSet(base) && c in ChannelSet(other)
  {
    KeepIn(Channels(base), ChannelSet(other))
  }

  function KeepIn(chs: seq<Channel>, keep: set<Channel>): (r: seq<Channel>)
    ensures forall c :: c in r <==> c in chs && c in keep
  {
    if chs == [] then []
    else if chs[0] in keep then [chs[0]] + KeepIn(chs[1..], keep)
    else KeepIn(chs[1..], keep)
  }

  /** How far `other` could be moved back on channel `c` after appending: `base.stop_time - base.ch_stop_time(c) + other.ch_start_time(c)`. */
  function Slack(base: Schedule, other: Schedule, c: Channel): int {
    StopTime(base) - ChStopTime(base, {c}) + ChStartTime(other, {c})
  }

  /** The insert time that channel `c` alone demands: `base.ch_stop_time(c) - other.ch_start_time(c)`. */
  function Gap(base: Schedule, other: Schedule, c: Channel): int {
    ChStopTime(base, {c}) - ChStartTime(other, {c})
  }

  function Slacks(base: Schedule, other: Schedule, chs: seq<Channel>): (r: seq<int>)
    ensures |r| == |chs| && forall k :: 0 <= k < |chs| ==> r[k] == Slack(base, other, chs[k])
  {
    seq(|chs|, k requires 0 <= k < |chs| => Slack(base, other, chs[k]))
  }

  /** `np.argmin`: the first position of the least element. */
  function ArgMin(xs: seq<int>): (i: nat)
    requires |xs| > 0
    ensures i < |xs|
    ensures forall j :: 0 <= j < |xs| ==> xs[i] <= xs[j]
    ensures forall j :: 0 <= j < i ==> xs[i] < xs[j]
  {
    if |xs| == 1 then 0
    else
      var k := ArgMin(xs[..|xs| - 1]);
      if xs[|xs| - 1] < xs[k] then |xs| - 1 else k
  }

  /**
   * `push_append`'s insert time. Picking the channel of least slack picks the
   * channel of greatest gap, so the time is the largest gap over the shared
   * channels, whatever their order, and 0 when there is none.
   */
  function PushAppendTime(base: Schedule, other: Schedule): (t: int)
    ensures CommonChannels(base, other) == [] ==> t == 0
    ensures forall c :: c in ChannelSet(base) && c in ChannelSet(other) ==> Gap(base, other, c) <= t
    ensures CommonChannels(base, other) != [] ==>
              exists c :: c in ChannelSet(base) && c in ChannelSet(other) && Gap(base, other, c) == t
  {
    var chs := CommonChannels(base, other);
    if chs == [] then 0
    else
      var slackChan := chs[ArgMin(Slacks(base, other, chs))];
      LeastSlackIsGreatestGap(base, other);
      Gap(base, other, slackChan)
  }

  lemma LeastSlackIsGreatestGap(base: Schedule, other: Schedule)
    requires CommonChannels(base, other) != []
    ensures var chs := CommonChannels(base, other);
            var slackChan := chs[ArgMin(Slacks(base, other, chs))];
            slackChan in ChannelSet(base) && slackChan in ChannelSet(other) &&
            forall c :: c in ChannelSet(base) && c in ChannelSet(other) ==> Gap(base, other, c) <= Gap(base, other, slackChan)
  {
    var chs := CommonChannels(base, other);
    var slacks := Slacks(base, other, chs);
    var k := ArgMin(slacks);
    forall c | c in ChannelSet(base) && c in ChannelSet(other)
      ensures Gap(base, other, c) <= Gap(base, other, chs[k])
    {
      var j :| 0 <= j < |chs| && chs[j] == c;
      assert slacks[k] <= slacks[j];
    }
  }

  /** `push_append(this, other)`: `this.insert(insert_time, other)`. */
  function PushAppend(base: Schedule, other: Schedule): (r: Result<Schedule, Error>)
    ensures r.Ok? <==> Valid(other) && TS.NoOverlap(TimeslotsOf(base) + TS.Shift(TimeslotsOf(other), PushAppendTime(base, other)))
    ensures r.Ok? ==> TimeslotsOf(r.value) == TimeslotsOf(base) + TS.Shift(TimeslotsOf(other), PushAppendTime(base, other))
    ensures r.Ok? ==> r.value == Composite(base.name, [base, Composite(other.name, [other], PushAppendTime(base, other))], 0)
    ensures r.Err? ==> r.error == ScheduleOverlap
  {
    Ops.Insert(base, PushAppendTime(base, other), other, None)
  }

  /** On every shared channel, all of `other`'s pushed content starts at or after all of `this`'s content ends. */
  lemma PushAppendSeparates(base: Schedule, other: Schedule)
    ensures var ps, os := TimeslotsOf(base), TS.Shift(TimeslotsOf(other), PushAppendTime(base, other));
            forall i, j :: 0 <= i < |ps| && 0 <= j < |os| && ps[i].channel == os[j].channel ==>
              ps[i].interval.stop <= os[j].interval.start
  {
    var ps, t := TimeslotsOf(base), PushAppendTime(base, other);
    var os0 := TimeslotsOf(other);
    var os := TS.Shift(os0, t);
    forall i, j | 0 <= i < |ps| && 0 <= j < |os| && ps[i].channel == os[j].channel
      ensures ps[i].interval.stop <= os[j].interval.start
    {
      var c := ps[i].channel;
      assert os0[j].channel == c;
      assert c in ChannelSet(base) && c in ChannelSet(other);
      assert ps[i].channel in {c} && os0[j].channel in {c};
      assert ps[i].interval.stop <= ChStopTime(base, {c});
      assert ChStartTime(other, {c}) <= os0[j].interval.start;
    }
  }

  /** Pushing a collision-free schedule onto a collision-free schedule never fails and gives a collision-free result. */
  lemma PushAppendNeverCollides(base: Schedule, other: Schedule)
    requires Valid(base) && Valid(other)
    ensures PushAppend(base, other).Ok? && Valid(PushAppend(base, other).value)
  {
    var t := PushAppendTime(base, other);
    PushAppendSeparates(base, other);
    TS.ShiftNoOverlap(TimeslotsOf(other), t);
    assert TS.Compatible(TimeslotsOf(base), TS.Shift(TimeslotsOf(other), t));
    TS.ConcatNoOverlap(TimeslotsOf(base), TS.Shift(TimeslotsOf(other), t));
  }

  // ---------------------------------------------------------------------------
  // left_align
  // ---------------------------------------------------------------------------

  /** `left_align(*instructions)`: `push_append` folded over the inputs in order, from `Schedule()`. */
  function LeftAlign(xs: seq<Schedule>): (r: Result<Schedule, Error>)
    ensures xs == [] ==> r == Ok(Empty)
    ensures r.Err? ==> r.error == ScheduleOverlap
    decreases |xs|
  {
    if xs == [] then Ok(Empty)
    else
      var aligned :- LeftAlign(xs[..|xs| - 1]);
      PushAppend(aligned, xs[|xs| - 1])
  }

  /** The channels used by a list of components. */
  function ChannelsOfAll(xs: seq<Schedule>): set<Channel> {
    if xs == [] then {} else ChannelsOfAll(xs[..|xs| - 1]) + ChannelSet(xs[|xs| - 1])
  }

  /** Left-aligning collision-free components never fails, the result is collision-free, and it uses exactly their channels. */
  lemma {:induction false} LeftAlignValid(xs: seq<Schedule>)
    requires forall i :: 0 <= i < |xs| ==> Valid(xs[i])
    ensures LeftAlign(xs).Ok? && Valid(LeftAlign(xs).value)
    ensures ChannelSet(LeftAlign(xs).value) == ChannelsOfAll(xs)
    decreases |xs|
  {
    if xs != [] {
      var front, last := xs[..|xs| - 1], xs[|xs| - 1];
      assert forall i :: 0 <= i < |front| ==> front[i] == xs[i];
      LeftAlignValid(front);
      var aligned := LeftAlign(front).value;
      PushAppendNeverCollides(aligned, last);
      var t := PushAppendTime(aligned, last);
      TS.ConcatChannels(TimeslotsOf(aligned), TS.Shift(TimeslotsOf(last), t));
      TS.ShiftChannelSet(TimeslotsOf(last), t);
    }
  }

  /** Left-aligning one collision-free component keeps its occupancy unchanged. */
  lemma LeftAlignSingle(x: Schedule)
    requires Valid(x)
    ensures LeftAlign([x]).Ok? && TimeslotsOf(LeftAlign([x]).value) == TimeslotsOf(x)
  {
    assert [x][..0] == [];
    assert LeftAlign([x]) == PushAppend(Empty, x);
    assert Empty.children == [];
    assert TimeslotsOf(Empty) == [];
    assert CommonChannels(Empty, x) == [];
    TS.ShiftZero(TimeslotsOf(x));
    PushAppendNeverCollides(Empty, x);
  }

  // ---------------------------------------------------------------------------
  // In-place insertion
  // ---------------------------------------------------------------------------

  /**
   * `aligned.insert(t, child, mutate=True)`: the child, shifted by `t`, becomes the
   * last child of `aligned` itself; the insertion fails on a collision.
   */
  function InsertMut(aligned: Schedule, t: int, child: Schedule): (r: Result<Schedule, Error>)
    requires aligned.Composite?
    ensures r.Ok? <==> TS.NoOverlap(TimeslotsOf(aligned) + TS.Shift(TimeslotsOf(child), t + aligned.shift))
    ensures r.Ok? ==> r.value == Composite(aligned.name, aligned.children + [Composite(child.name, [child], t)], aligned.shift)
    ensures r.Ok? ==> TimeslotsOf(r.value) == TimeslotsOf(aligned) + TS.Shift(TimeslotsOf(child), t + aligned.shift)
    ensures r.Err? ==> r.error == ScheduleOverlap
  {
    InsertMutSlots(aligned, t, child);
    Make(aligned.children + [Composite(child.name, [child], t)], aligned.shift, aligned.name)
  }

  lemma InsertMutSlots(aligned: Schedule, t: int, child: Schedule)
    requires aligned.Composite?
    ensures ChildSlots(aligned.children + [Composite(child.name, [child], t)], aligned.shift)
            == TimeslotsOf(aligned) + TS.Shift(TimeslotsOf(child), t + aligned.shift)
  {
    var wrapped := Composite(child.name, [child], t);
    ChildSlotsSnoc(aligned.children, wrapped, aligned.shift);
    ChildPieceIsShift(wrapped, aligned.shift);
    Ops.SingleSlots(child, t);
    ChildPieceIsShift(child, t);
    TS.ShiftShift(TimeslotsOf(child), t, aligned.shift);
  }

  // ---------------------------------------------------------------------------
  // right_align
  // ---------------------------------------------------------------------------

  /** `filter(channels=[c]).duration`: the latest stop on one channel, 0 when the channel is unused. */
  function StopOn(s: Schedule, c: Channel): int {
    TS.ChStopTime(TimeslotsOf(s), {c})
  }

  /** `filter(channels=[c]).start_time`: the earliest start on one channel, 0 when the channel is unused. */
  function StartOn(s: Schedule, c: Channel): int {
    TS.ChStartTime(TimeslotsOf(s), {c})
  }

  /** `channel_durations` after visiting `chs`: each channel's `filter(channels=[c]).duration`. */
  function ChannelStops(s: Schedule, chs: seq<Channel>): map<Channel, int> {
    if chs == [] then map[] else ChannelStops(s, chs[..|chs| - 1])[chs[|chs| - 1] := StopOn(s, chs[|chs| - 1])]
  }

  /** `channel_durations` has a key for every visited channel and holds its latest stop. */
  lemma {:induction false} ChannelStopsMeaning(s: Schedule, chs: seq<Channel>)
    ensures forall c :: c in ChannelStops(s, chs) <==> c in chs
    ensures forall c :: c in ChannelStops(s, chs) ==> ChannelStops(s, chs)[c] == StopOn(s, c)
    decreases |chs|
  {
    if chs != [] {
      hide StopOn;
      ChannelStopsMeaning(s, chs[..|chs| - 1]);
      MemberSplit(chs);
    }
  }

  /** The span of one channel: `duration - start_time` of its filtered schedule. */
  function Span(s: Schedule, c: Channel): int {
    StopOn(s, c) - StartOn(s, c)
  }

  /** `max_duration` after visiting `chs`: the largest span, starting from 0. */
  function MaxSpan(s: Schedule, chs: seq<Channel>): int {
    if chs == [] then 0
    else
      var m, sp := MaxSpan(s, chs[..|chs| - 1]), Span(s, chs[|chs| - 1]);
      if m < sp then sp else m
  }

  /** `max_duration` is at least 0 and at least every visited span, and is 0 or one of them. */
  lemma {:induction false} MaxSpanMeaning(s: Schedule, chs: seq<Channel>)
    ensures 0 <= MaxSpan(s, chs)
    ensures forall c :: c in chs ==> Span(s, c) <= MaxSpan(s, chs)
    ensures MaxSpan(s, chs) == 0 || exists c :: c in chs && Span(s, c) == MaxSpan(s, chs)
    decreases |chs|
  {
    if chs != [] {
      hide Span;
      MaxSpanMeaning(s, chs[..|chs| - 1]);
      MemberSplit(chs);
    }
  }

  /** `max(cd[c] for c in chs)`: a missing key raises KeyError, no channels at all raise ValueError. */
  function MaxOver(cd: map<Channel, int>, chs: seq<Channel>): Result<int, Error> {
    if chs == [] then Err(EmptyMax)
    else if chs[0] !in cd then Err(KeyNotFound)
    else if |chs| == 1 then Ok(cd[chs[0]])
    else
      var rest :- MaxOver(cd, chs[1..]);
      Ok(if cd[chs[0]] < rest then rest else cd[chs[0]])
  }

  /** The generator's `max` is defined exactly when there is a channel and every channel is a key, and is then their largest value. */
  lemma {:induction false} MaxOverMeaning(cd: map<Channel, int>, chs: seq<Channel>)
    ensures MaxOver(cd, chs).Ok? <==> chs != [] && forall c :: c in chs ==> c in cd
    ensures MaxOver(cd, chs).Ok? ==>
              (forall c :: c in chs ==> cd[c] <= MaxOver(cd, chs).value) && exists c :: c in chs && cd[c] == MaxOver(cd, chs).value
    ensures chs == [] ==> MaxOver(cd, chs) == Err(EmptyMax)
    ensures MaxOver(cd, chs).Err? && chs != [] ==> MaxOver(cd, chs).error == KeyNotFound
    decreases |chs|
  {
    if |chs| > 1 {
      MaxOverMeaning(cd, chs[1..]);
      MemberHeadTail(chs);
    }
  }

  /** `component.channels`: an instruction's own channels, a schedule's collection channels. */
  function ComponentChannels(s: Schedule): seq<Channel> {
    if s.Instruction? then s.channels else Channels(s)
  }

  /** The delayed time of one left-aligned instruction: `max_duration - instr_max_dur + instr_time`. */
  function DelayedTime(maxDuration: int, instrMaxDur: int, instrTime: int): int {
    maxDuration - instrMaxDur + instrTime
  }

  /** The second loop of `right_align`, from an accumulated `aligned` over the remaining (time, instruction) pairs. */
  function PlaceAll(aligned: Schedule, items: seq<(int, Schedule)>, cd: map<Channel, int>, maxDuration: int): (r: Result<Schedule, Error>)
    requires aligned.Composite?
    ensures r.Ok? ==> r.value.Composite? && r.value.name == aligned.name && r.value.shift == aligned.shift
    decreases |items|
  {
    if items == [] then Ok(aligned)
    else
      var next :- PlaceStep(aligned, items[0], cd, maxDuration);
      PlaceAll(next, items[1..], cd, maxDuration)
  }

  /** `right_align` as a value: left-align, measure every channel, then re-insert every instruction delayed. */
  function RightAlignSpec(xs: seq<Schedule>): (r: Result<Schedule, Error>)
  {
    var leftAligned :- LeftAlign(xs);
    var chs := Channels(leftAligned);
    PlaceAll(Empty, Flatten(leftAligned, 0), ChannelStops(leftAligned, chs), MaxSpan(leftAligned, chs))
  }

  /** `right_align(*instructions)`. */
  method RightAlign(instructions: seq<Schedule>) returns (r: Result<Schedule, Error>)
    ensures r == RightAlignSpec(instructions)
  {
    var leftAligned :- LeftAlign(instructions);
    var channelDurations, maxDuration := MeasureChannels(leftAligned);
    r := PlaceDelayed(Flatten(leftAligned, 0), channelDurations, maxDuration);
  }

  /** The first loop of `right_align`: every channel's latest stop, and the largest channel span. */
  method MeasureChannels(leftAligned: Schedule) returns (channelDurations: map<Channel, int>, maxDuration: int)
    ensures channelDurations == ChannelStops(leftAligned, Channels(leftAligned))
    ensures maxDuration == MaxSpan(leftAligned, Channels(leftAligned))
  {
    maxDuration := 0;
    channelDurations := map[];
    var chs := Channels(leftAligned);
    hide StopOn, StartOn, Channels;
    var i := 0;
    while i < |chs|
      invariant 0 <= i <= |chs|
      invariant channelDurations == ChannelStops(leftAligned, chs[..i])
      invariant maxDuration == MaxSpan(leftAligned, chs[..i])
    {
      var channel := chs[i];
      var channelDuration := StopOn(leftAligned, channel) - StartOn(leftAligned, channel);
      channelDurations := channelDurations[channel := StopOn(leftAligned, channel)];
      maxDuration := if maxDuration < channelDuration then channelDuration else maxDuration;
      PrefixSnoc(chs, i);
      i := i + 1;
    }
    PrefixAll(chs);
  }

  /**
   * One pass of `right_align`'s second loop: the instruction's largest channel
   * stop, then the in-place insert at `max_duration - instr_max_dur + instr_time`.
   */
  function PlaceStep(aligned: Schedule, item: (int, Schedule), cd: map<Channel, int>, maxDuration: int): (r: Result<Schedule, Error>)
    requires aligned.Composite?
    ensures MaxOver(cd, ComponentChannels(item.1)).Err? ==> r == Err(MaxOver(cd, ComponentChannels(item.1)).error)
    ensures r.Ok? ==> MaxOver(cd, ComponentChannels(item.1)).Ok?
    ensures r.Ok? ==>
              var wrapped := Composite(item.1.name, [item.1], DelayedTime(maxDuration, MaxOver(cd, ComponentChannels(item.1)).value, item.0));
              r.value == Composite(aligned.name, aligned.children + [wrapped], aligned.shift)
  {
    var instrMaxDur :- MaxOver(cd, ComponentChannels(item.1));
    InsertMut(aligned, DelayedTime(maxDuration, instrMaxDur, item.0), item.1)
  }

  /** The second loop of `right_align`: insert every instruction at its delayed time into a fresh schedule. */
  method PlaceDelayed(items: seq<(int, Schedule)>, channelDurations: map<Channel, int>, maxDuration: int)
    returns (r: Result<Schedule, Error>)
    ensures r == PlaceAll(Empty, items, channelDurations, maxDuration)
  {
    var aligned := Empty;
    var j := 0;
    while j < |items|
      invariant 0 <= j <= |items|
      invariant aligned.Composite?
      invariant PlaceAll(aligned, items[j..], channelDurations, maxDuration) == PlaceAll(Empty, items, channelDurations, maxDuration)
    {
      SuffixStep(items, j);
      aligned :- PlaceStep(aligned, items[j], channelDurations, maxDuration);
      j := j + 1;
    }
    r := Ok(aligned);
  }

  /**
   * `PlaceAll` keeps the children already present and appends, for each item in
   * order, the instruction wrapped with shift `max_duration - instr_max_dur + instr_time`.
   */
  lemma {:induction false} PlaceAllChildren(aligned: Schedule, items: seq<(int, Schedule)>, cd: map<Channel, int>, maxDuration: int)
    requires aligned.Composite?
    requires PlaceAll(aligned, items, cd, maxDuration).Ok?
    ensures var out := PlaceAll(aligned, items, cd, maxDuration).value;
            |out.children| == |aligned.children| + |items| &&
            out.children[..|aligned.children|] == aligned.children &&
            forall k :: 0 <= k < |items| ==>
              MaxOver(cd, ComponentChannels(items[k].1)).Ok? &&
              out.children[|aligned.children| + k] ==
                Composite(items[k].1.name, [items[k].1], DelayedTime(maxDuration, MaxOver(cd, ComponentChannels(items[k].1)).value, items[k].0))
    decreases |items|
  {
    hide PlaceStep, InsertMut, MaxOver, ComponentChannels, DelayedTime;
    if items != [] {
      var next := PlaceStep(aligned, items[0], cd, maxDuration).value;
      PlaceAllChildren(next, items[1..], cd, maxDuration);
      var out := PlaceAll(aligned, items, cd, maxDuration).value;
      assert out == PlaceAll(next, items[1..], cd, maxDuration).value;
      var n := |aligned.children|;
      assert out.children[..n] == next.children[..n + 1][..n];
      forall k | 0 <= k < |items|
        ensures MaxOver(cd, ComponentChannels(items[k].1)).Ok? &&
                out.children[n + k] ==
                  Composite(items[k].1.name, [items[k].1], DelayedTime(maxDuration, MaxOver(cd, ComponentChannels(items[k].1)).value, items[k].0))
      {
        if k > 0 { assert items[k] == items[1..][k - 1]; }
        else { assert out.children[n] == next.children[..n + 1][n]; }
      }
    }
  }

  // ---------------------------------------------------------------------------
  // align_in_sequence
  // ---------------------------------------------------------------------------

  /** `align_in_sequence` as a value: each remaining component inserted in place at the accumulated duration. */
  function SequenceFrom(aligned: Schedule, xs: seq<Schedule>): (r: Result<Schedule, Error>)
    requires aligned.Composite?
    ensures r.Ok? ==> r.value.Composite? && r.value.shift == aligned.shift && r.value.name == aligned.name
    ensures r.Ok? ==> |r.value.children| == |aligned.children| + |xs|
    decreases |xs|
  {
    if xs == [] then Ok(aligned)
    else
      var next :- SequenceStep(aligned, xs[0]);
      SequenceFrom(next, xs[1..])
  }

  /** One pass of `align_in_sequence`'s loop: `aligned.insert(aligned.duration, instruction, mutate=True)`. */
  function SequenceStep(aligned: Schedule, x: Schedule): (r: Result<Schedule, Error>)
    requires aligned.Composite?
    ensures r.Ok? ==> r.value == Composite(aligned.name, aligned.children + [Composite(x.name, [x], Duration(aligned))], aligned.shift)
  {
    InsertMut(aligned, Duration(aligned), x)
  }

  /** `align_in_sequence(*instructions)`. */
  method AlignInSequence(instructions: seq<Schedule>) returns (r: Result<Schedule, Error>)
    ensures r == SequenceFrom(Empty, instructions)
  {
    var aligned := Empty;
    var i := 0;
    while i < |instructions|
      invariant 0 <= i <= |instructions|
      invariant aligned.Composite?
      invariant SequenceFrom(aligned, instructions[i..]) == SequenceFrom(Empty, instructions)
    {
      SuffixStep(instructions, i);
      aligned :- SequenceStep(aligned, instructions[i]);
      i := i + 1;
    }
    r := Ok(aligned);
  }

  /**
   * A component that starts at non-negative times, inserted at the current
   * duration of a shift-0 schedule, starts after everything already there ends,
   * on every channel.
   */
  lemma InsertAtDurationIsAfter(aligned: Schedule, x: Schedule)
    requires aligned.Composite? && aligned.shift == 0
    requires TS.StartsNonNegative(TimeslotsOf(x))
    ensures var before, moved := TimeslotsOf(aligned), TS.Shift(TimeslotsOf(x), Duration(aligned) + aligned.shift);
            forall i, j :: 0 <= i < |before| && 0 <= j < |moved| ==> before[i].interval.stop <= moved[j].interval.start
  {
  }

  /**
   * Sequencing collision-free components that start at non-negative times onto a
   * collision-free schedule never fails and keeps every start non-negative.
   */
  lemma {:induction false} SequenceNeverCollides(aligned: Schedule, xs: seq<Schedule>)
    requires aligned.Composite? && aligned.shift == 0 && Valid(aligned) && TS.StartsNonNegative(TimeslotsOf(aligned))
    requires forall i :: 0 <= i < |xs| ==> Valid(xs[i]) && TS.StartsNonNegative(TimeslotsOf(xs[i]))
    ensures SequenceFrom(aligned, xs).Ok?
    ensures Valid(SequenceFrom(aligned, xs).value)
    ensures TS.StartsNonNegative(TimeslotsOf(SequenceFrom(aligned, xs).value))
    decreases |xs|
  {
    if xs != [] {
      SequenceStepValid(aligned, xs[0]);
      var next := SequenceStep(aligned, xs[0]).value;
      hide Valid, TS.StartsNonNegative, SequenceStep, TimeslotsOf;
      assert forall i :: 0 <= i < |xs[1..]| ==> xs[1..][i] == xs[i + 1];
      SequenceNeverCollides(next, xs[1..]);
    }
  }

  /** One step of `align_in_sequence` keeps the accumulated schedule collision-free, unshifted and starting at non-negative times. */
  lemma SequenceStepValid(aligned: Schedule, x: Schedule)
    requires aligned.Composite? && aligned.shift == 0 && Valid(aligned) && TS.StartsNonNegative(TimeslotsOf(aligned))
    requires Valid(x) && TS.StartsNonNegative(TimeslotsOf(x))
    ensures SequenceStep(aligned, x).Ok?
    ensures var next := SequenceStep(aligned, x).value;
            next.Composite? && next.shift == 0 && Valid(next) && TS.StartsNonNegative(TimeslotsOf(next))
  {
    var t := Duration(aligned);
    var before, moved := TimeslotsOf(aligned), TS.Shift(TimeslotsOf(x), t);
    SequenceStepFits(aligned, x);
    StopTimeNonNegative(aligned);
    TS.ShiftStartsNonNegative(TimeslotsOf(x), t);
    TS.ConcatStartsNonNegative(before, moved);
    hide TS.NoOverlap, TS.StartsNonNegative, Duration, TS.Shift, Make;
    var next := SequenceStep(aligned, x).value;
    assert TimeslotsOf(next) == before + moved;
  }

  /** Inserted at the current duration, the component's moved occupancy cannot collide with what is there. */
  lemma SequenceStepFits(aligned: Schedule, x: Schedule)
    requires aligned.Composite? && aligned.shift == 0 && Valid(aligned) && Valid(x) && TS.StartsNonNegative(TimeslotsOf(x))
    ensures TS.NoOverlap(TimeslotsOf(aligned) + TS.Shift(TimeslotsOf(x), Duration(aligned)))
  {
    var before, moved := TimeslotsOf(aligned), TS.Shift(TimeslotsOf(x), Duration(aligned));
    InsertAtDurationIsAfter(aligned, x);
    TS.ShiftNoOverlap(TimeslotsOf(x), Duration(aligned));
    assert TS.Compatible(before, moved);
    TS.ConcatNoOverlap(before, moved);
  }

  // ---------------------------------------------------------------------------
  // align_center
  // ---------------------------------------------------------------------------

  /** Python's `sub in s` for strings. */
  predicate Contains(s: string, sub: string) {
    exists i :: 0 <= i <= |s| && OccursAt(s, sub, i)
  }

  /** `sub` occurs in `s` starting at index `i`. */
  predicate OccursAt(s: string, sub: string, i: int) {
    0 <= i <= |s| - |sub| && s[i..i + |sub|] == sub
  }

  /** `'delay' in x.name`: raises TypeError when the name is None. */
  function NamedDelay(x: Schedule): (r: Result<bool, Error>)
    ensures x.name.None? <==> r == Err(NameNotString)
    ensures x.name.Some? ==> r == Ok(Contains(x.name.value, "delay"))
  {
    if x.name.None? then Err(NameNotString) else Ok(Contains(x.name.value, "delay"))
  }

  /** `x.channels[0]`: raises IndexError when the component has no channel. */
  function FirstChannel(x: Schedule): (r: Result<Channel, Error>)
    ensures r.Ok? <==> |ComponentChannels(x)| > 0
    ensures r.Ok? ==> r.value == ComponentChannels(x)[0]
    ensures r.Err? ==> r.error == IndexOutOfRange
  {
    if |ComponentChannels(x)| == 0 then Err(IndexOutOfRange) else Ok(ComponentChannels(x)[0])
  }

  /** `Delay(duration)(channel)`: a delay leaf on one channel. */
  function DelayOn(duration: nat, c: Channel): Schedule {
    Instruction(Some("delay"), duration, [c], DelayOp)
  }

  /** `aligned += Delay(duration)(x.channels[0])`. */
  function AppendDelay(aligned: Schedule, duration: nat, x: Schedule): Result<Schedule, Error> {
    var c :- FirstChannel(x);
    Ops.Plus(aligned, DelayOn(duration, c))
  }

  /** `if shift > 0: aligned += Delay(shift)(x.channels[0])`. */
  function AppendDelayIfPositive(aligned: Schedule, duration: nat, x: Schedule): Result<Schedule, Error> {
    if duration > 0 then AppendDelay(aligned, duration, x) else Ok(aligned)
  }

  /** The half-difference delay of the shorter of two durations; 0 for the longer one. */
  function HalfDifference(longer: int, shorter: int): (r: nat)
    ensures longer > shorter ==> r == (longer - shorter) / 2 && 2 * r <= longer - shorter < 2 * r + 2
    ensures longer <= shorter ==> r == 0
  {
    if longer > shorter then (longer - shorter) / 2 else 0
  }

  /** `align_center(*instructions)`: exactly two components, the shorter one padded by half the difference on both sides. */
  function AlignCenter(xs: seq<Schedule>): (r: Result<Schedule, Error>)
    ensures |xs| != 2 ==> r == Err(NotImplemented)
    ensures |xs| == 2 && xs[0].name.None? ==> r == Err(NameNotString)
  {
    if |xs| != 2 then Err(NotImplemented)
    else
      var pulse1, pulse2 := xs[0], xs[1];
      var d1, d2 := Duration(pulse1), Duration(pulse2);
      var d2Shift, d1Shift := HalfDifference(d1, d2), HalfDifference(d2, d1);
      var firstIsDelay :- NamedDelay(pulse1);
      if firstIsDelay then PadAround(pulse2, d2Shift)
      else
        var secondIsDelay :- NamedDelay(pulse2);
        if secondIsDelay then PadAround(pulse1, d1Shift)
        else CenterPair(pulse1, pulse2, d1Shift, d2Shift)
  }

  /** The branch where the other component is a delay: only `x`, padded by `shift` on both sides, is kept. */
  function PadAround(x: Schedule, shift: nat): Result<Schedule, Error> {
    var aligned :- AppendDelay(Empty, shift, x);
    var aligned :- Ops.Plus(aligned, x);
    AppendDelay(aligned, shift, x)
  }

  /** The branch for two ordinary components: leading delays, both components, trailing delays. */
  function CenterPair(pulse1: Schedule, pulse2: Schedule, d1Shift: nat, d2Shift: nat): Result<Schedule, Error> {
    var aligned :- AppendDelayIfPositive(Empty, d1Shift, pulse1);
    var aligned :- AppendDelayIfPositive(aligned, d2Shift, pulse2);
    var aligned :- Ops.Plus(aligned, pulse1);
    var aligned :- Ops.Plus(aligned, pulse2);
    var aligned :- AppendDelayIfPositive(aligned, d1Shift, pulse1);
    AppendDelayIfPositive(aligned, d2Shift, pulse2)
  }

  /** A named one-channel leaf whose name does not mention `delay`. */
  predicate PlainLeaf(x: Schedule, c: Channel) {
    x.Instruction? && x.channels == [c] && x.name.Some? && !Contains(x.name.value, "delay")
  }

  /** With two components whose names do not mention `delay`, `align_center` takes the ordinary branch. */
  lemma AlignCenterPlainBranch(p1: Schedule, p2: Schedule)
    requires NamedDelay(p1) == Ok(false) && NamedDelay(p2) == Ok(false)
    ensures AlignCenter([p1, p2]) ==
            CenterPair(p1, p2, HalfDifference(Duration(p2), Duration(p1)), HalfDifference(Duration(p1), Duration(p2)))
  {
  }

  /** The ordinary branch with no padding on the first component, as a chain of four appends. */
  lemma CenterPairSteps(p1: Schedule, p2: Schedule, c: Channel, k: nat, a1: Schedule, a2: Schedule, a3: Schedule, a4: Schedule)
    requires k > 0 && FirstChannel(p2) == Ok(c)
    requires Ops.Plus(Empty, DelayOn(k, c)) == Ok(a1)
    requires Ops.Plus(a1, p1) == Ok(a2) && Ops.Plus(a2, p2) == Ok(a3)
    requires Ops.Plus(a3, DelayOn(k, c)) == Ok(a4)
    ensures CenterPair(p1, p2, 0, k) == Ok(a4)
  {
    DelayStep(Empty, k, p2, c, a1);
    DelayStep(a3, k, p2, c, a4);
  }

  /** A positive delay on the component's first channel, appended. */
  lemma DelayStep(aligned: Schedule, k: nat, x: Schedule, c: Channel, next: Schedule)
    requires k > 0 && FirstChannel(x) == Ok(c) && Ops.Plus(aligned, DelayOn(k, c)) == Ok(next)
    ensures AppendDelayIfPositive(aligned, k, x) == Ok(next)
  {
  }

  /** The leading delay on `c2` followed by the first pulse, both at time 0. */
  function LeadingPart(p1: Schedule, c2: Channel, k: nat): Schedule {
    Ops.AppendedAt(Ops.AppendedAt(Empty, DelayOn(k, c2), 0), p1, 0)
  }

  /** The schedule `align_center` builds when only the second pulse is padded by `k`. */
  function CenteredSecond(p1: Schedule, p2: Schedule, c2: Channel, k: nat): Schedule
    requires p2.Instruction?
  {
    Ops.AppendedAt(Ops.AppendedAt(LeadingPart(p1, c2, k), p2, k), DelayOn(k, c2), k + p2.duration)
  }

  lemma CenteredSecondUnfold(p1: Schedule, p2: Schedule, c2: Channel, k: nat)
    requires p2.Instruction?
    ensures CenteredSecond(p1, p2, c2, k) == Ops.AppendedAt(Ops.AppendedAt(LeadingPart(p1, c2, k), p2, k), DelayOn(k, c2), k + p2.duration)
  {
  }

  /** Each intermediate schedule of the padded-second chain is collision-free, with the channel stop times the next append lands at. */
  lemma CenterChainFacts(p1: Schedule, p2: Schedule, c1: Channel, c2: Channel, k: nat)
    requires PlainLeaf(p1, c1) && PlainLeaf(p2, c2) && c1 != c2
    ensures Valid(Ops.AppendedAt(Empty, DelayOn(k, c2), 0))
    ensures ChStopTime(Ops.AppendedAt(Empty, DelayOn(k, c2), 0), {c1}) == 0
    ensures Valid(LeadingPart(p1, c2, k)) && ChStopTime(LeadingPart(p1, c2, k), {c2}) == k
  {
    var d := DelayOn(k, c2);
    assert ChStopTime(Empty, {c1}) == 0 && ChStopTime(Empty, {c2}) == 0;
    Ops.AppendLeafShape(Empty, d, c2, 0);
    Ops.AppendLeafElsewhere(Empty, d, c2, 0, c1);
    Ops.AppendLeafShape(Ops.AppendedAt(Empty, d, 0), p1, c1, 0);
    Ops.AppendLeafElsewhere(Ops.AppendedAt(Empty, d, 0), p1, c1, 0, c2);
  }

  /** The first two appends: the delay on the empty schedule, then the first pulse, both at 0. */
  lemma LeadingAppends(p1: Schedule, c1: Channel, c2: Channel, k: nat)
    requires PlainLeaf(p1, c1) && c1 != c2
    ensures Ops.Plus(Empty, DelayOn(k, c2)) == Ok(Ops.AppendedAt(Empty, DelayOn(k, c2), 0))
    ensures Ops.Plus(Ops.AppendedAt(Empty, DelayOn(k, c2), 0), p1) == Ok(LeadingPart(p1, c2, k))
  {
    var d := DelayOn(k, c2);
    assert ChStopTime(Empty, {c1}) == 0 && ChStopTime(Empty, {c2}) == 0;
    Ops.AppendLeafShape(Empty, d, c2, 0);
    Ops.AppendLeafElsewhere(Empty, d, c2, 0, c1);
    Ops.AppendLeafResult(Empty, d, c2, 0);
    Ops.AppendLeafResult(Ops.AppendedAt(Empty, d, 0), p1, c1, 0);
  }

  /** The third append: the second pulse lands at `k`, after the leading delay on its channel. */
  lemma SecondPulseAppend(p1: Schedule, p2: Schedule, c1: Channel, c2: Channel, k: nat)
    requires PlainLeaf(p1, c1) && PlainLeaf(p2, c2) && c1 != c2
    ensures Ops.Plus(LeadingPart(p1, c2, k), p2) == Ok(Ops.AppendedAt(LeadingPart(p1, c2, k), p2, k))
  {
    CenterChainFacts(p1, p2, c1, c2, k);
    Ops.AppendLeafResult(LeadingPart(p1, c2, k), p2, c2, k);
  }

  /** The last append: a delay of `k` right after a pulse that landed at `k`. */
  lemma TrailingAppend(a2: Schedule, p2: Schedule, c2: Channel, k: nat)
    requires PlainLeaf(p2, c2) && Valid(a2) && ChStopTime(a2, {c2}) == k
    ensures Ops.Plus(Ops.AppendedAt(a2, p2, k), DelayOn(k, c2)) ==
            Ok(Ops.AppendedAt(Ops.AppendedAt(a2, p2, k), DelayOn(k, c2), k + p2.duration))
  {
    Ops.AppendTwoLeaves(a2, p2, DelayOn(k, c2), c2, k);
  }

  /** The ordinary branch padding only the second pulse builds `CenteredSecond`. */
  lemma CenterPairBuilds(p1: Schedule, p2: Schedule, c1: Channel, c2: Channel, k: nat)
    requires PlainLeaf(p1, c1) && PlainLeaf(p2, c2) && c1 != c2 && k > 0
    ensures CenterPair(p1, p2, 0, k) == Ok(CenteredSecond(p1, p2, c2, k))
  {
    LeadingAppends(p1, c1, c2, k);
    SecondPulseAppend(p1, p2, c1, c2, k);
    CenterChainFacts(p1, p2, c1, c2, k);
    TrailingAppend(LeadingPart(p1, c2, k), p2, c2, k);
    assert FirstChannel(p2) == Ok(c2);
    CenteredSecondUnfold(p1, p2, c2, k);
    CenterPairSteps(p1, p2, c2, k, Ops.AppendedAt(Empty, DelayOn(k, c2), 0), LeadingPart(p1, c2, k),
                    Ops.AppendedAt(LeadingPart(p1, c2, k), p2, k), CenteredSecond(p1, p2, c2, k));
  }

  /** Two plain pulses, the first at least as long: the ordinary branch, with no padding for the first. */
  lemma ShorterSecondBranch(p1: Schedule, p2: Schedule, c1: Channel, c2: Channel)
    requires PlainLeaf(p1, c1) && PlainLeaf(p2, c2)
    requires p1.duration >= p2.duration
    ensures AlignCenter([p1, p2]) == CenterPair(p1, p2, 0, HalfDifference(p1.duration, p2.duration))
  {
    assert Duration(p1) == p1.duration && Duration(p2) == p2.duration;
    AlignCenterPlainBranch(p1, p2);
  }

  /**
   * Centering two plain one-channel pulses on different channels, the second shorter
   * by at least two samples, succeeds and builds `CenteredSecond` with `k` the integer
   * half-difference of the durations: the longer pulse is not shifted, the shorter one
   * gets a delay of `k` before and after it.
   */
  lemma AlignCenterShorterSecond(p1: Schedule, p2: Schedule, c1: Channel, c2: Channel, k: nat)
    requires PlainLeaf(p1, c1) && PlainLeaf(p2, c2) && c1 != c2
    requires p1.duration >= p2.duration + 2 && k == (p1.duration - p2.duration) / 2
    ensures k > 0
    ensures AlignCenter([p1, p2]) == Ok(CenteredSecond(p1, p2, c2, k))
  {
    ShorterSecondBranch(p1, p2, c1, c2);
    CenterPairBuilds(p1, p2, c1, c2, k);
  }

  /**
   * The flattened instructions of `CenteredSecond`: the delay and the longer pulse at 0,
   * the shorter pulse at `k`, the trailing delay right after it.
   */
  lemma CenteredSecondInstructions(p1: Schedule, p2: Schedule, c2: Channel, k: nat)
    requires p1.Instruction? && p2.Instruction?
    ensures Instructions(CenteredSecond(p1, p2, c2, k)) ==
            [(0, DelayOn(k, c2)), (0, p1), (k, p2), (k + p2.duration, DelayOn(k, c2))]
  {
    var d := DelayOn(k, c2);
    var a1 := Ops.AppendedAt(Empty, d, 0);
    var a2 := LeadingPart(p1, c2, k);
    var a3 := Ops.AppendedAt(a2, p2, k);
    assert Instructions(Empty) == [];
    FlattenPair(Empty, d, 0, Empty.name, d.name);
    FlattenPair(a1, p1, 0, a1.name, p1.name);
    FlattenPair(a2, p2, k, a2.name, p2.name);
    FlattenPair(a3, d, k + p2.duration, a3.name, d.name);
    assert [] + [(0, d)] == [(0, d)];
    FourElements((0, d), (0, p1), (k, p2), (k + p2.duration, d));
  }

  lemma FourElements<T>(a: T, b: T, c: T, d: T)
    ensures [a] + [b] + [c] + [d] == [a, b, c, d]
  {
  }

  // ---------------------------------------------------------------------------
  // left_barrier / right_barrier
  // ---------------------------------------------------------------------------

  /** `left_barrier(*instructions, channels)`: left alignment followed by `pad`, which is a parameter here. */
  function LeftBarrier(xs: seq<Schedule>, channels: Option<seq<Channel>>,
                       pad: (Schedule, Option<seq<Channel>>) -> Schedule): (r: Result<Schedule, Error>)
    ensures LeftAlign(xs).Err? ==> r == Err(LeftAlign(xs).error)
    ensures LeftAlign(xs).Ok? ==> r == Ok(pad(LeftAlign(xs).value, channels))
  {
    var aligned :- LeftAlign(xs);
    Ok(pad(aligned, channels))
  }

  /** `right_barrier(*instructions, channels)`: right alignment followed by `pad`. */
  method RightBarrier(xs: seq<Schedule>, channels: Option<seq<Channel>>,
                      pad: (Schedule, Option<seq<Channel>>) -> Schedule) returns (r: Result<Schedule, Error>)
    ensures RightAlignSpec(xs).Err? ==> r == Err(RightAlignSpec(xs).error)
    ensures RightAlignSpec(xs).Ok? ==> r == Ok(pad(RightAlignSpec(xs).value, channels))
  {
    var aligned :- RightAlign(xs);
    r := Ok(pad(aligned, channels));
  }
}
