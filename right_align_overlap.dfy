/**
 * `right_align` raising on collision-free input. X (10 samples on d0), Y (10 samples
 * on d0 and d1) and Z (5 samples on d1) left-align to X at 0, Y at 10 and Z at 20.
 * The largest span is then 20 (d0: 0 to 20), but d1's latest stop is 25, so Y is
 * re-inserted at 20 - 25 + 10 = 5, on top of X on d0.
 */
module RightAlignOverlap {
  import opened Wrappers
  import opened Errors
  import opened PulseChannels
  import opened Schedules
  import opened Alignment
  import TS = Timeslots

  const D0 := Channel(DriveChannel, 0)
  const D1 := Channel(DriveChannel, 1)
  const X := Instruction(None, 10, [D0], Play("x"))
  const Y := Instruction(None, 10, [D0, D1], Play("y"))
  const Z := Instruction(None, 5, [D1], Play("z"))

  const XSlot := TS.Timeslot(TS.Interval(0, 10), D0)
  const YSlot0 := TS.Timeslot(TS.Interval(0, 10), D0)
  const YSlot1 := TS.Timeslot(TS.Interval(0, 10), D1)
  const ZSlot := TS.Timeslot(TS.Interval(0, 5), D1)
  const YAt0 := TS.Timeslot(TS.Interval(10, 20), D0)
  const YAt1 := TS.Timeslot(TS.Interval(10, 20), D1)
  const ZAt := TS.Timeslot(TS.Interval(20, 25), D1)

  /** The schedule after each push of `left_align`. */
  const S1 := Composite(None, [Empty, Composite(None, [X], 0)], 0)
  const S2 := Composite(None, [S1, Composite(None, [Y], 10)], 0)
  const S3 := Composite(None, [S2, Composite(None, [Z], 20)], 0)

  lemma LeafFacts()
    ensures TimeslotsOf(X) == [XSlot] && Valid(X)
    ensures TimeslotsOf(Y) == [YSlot0, YSlot1] && Valid(Y)
    ensures TimeslotsOf(Z) == [ZSlot] && Valid(Z)
  {
    assert TimeslotsOf(X) == LeafSlots(10, [D0]);
    assert TimeslotsOf(Y) == LeafSlots(10, [D0, D1]);
    assert TimeslotsOf(Z) == LeafSlots(5, [D1]);
  }

  /** First push: X onto `Schedule()`, at 0. */
  lemma FirstPush()
    ensures LeftAlign([X]) == Ok(S1)
    ensures TimeslotsOf(S1) == [XSlot] && Valid(S1)
  {
    LeafFacts();
    assert [X][..0] == [];
    assert LeftAlign([X]) == PushAppend(Empty, X);
    assert TimeslotsOf(Empty) == [];
    assert Channels(Empty) == [];
    assert CommonChannels(Empty, X) == [];
    hide TimeslotsOf, LeftAlign, Channels, CommonChannels;
    PushAppendNeverCollides(Empty, X);
    TS.ShiftZero([XSlot]);
  }

  /** The channel set of a literal collection of one, two or three timeslots. */
  lemma ChannelsOfOne(a: TS.Timeslot)
    ensures TS.Channels([a]) == {a.channel}
  {
    assert [a][0] == a;
  }

  lemma ChannelsOfTwo(a: TS.Timeslot, b: TS.Timeslot)
    ensures TS.Channels([a, b]) == {a.channel, b.channel}
  {
    assert [a, b][0] == a && [a, b][1] == b;
  }

  lemma ChannelsOfThree(a: TS.Timeslot, b: TS.Timeslot, c: TS.Timeslot)
    ensures TS.Channels([a, b, c]) == {a.channel, b.channel, c.channel}
  {
    assert [a, b, c][0] == a && [a, b, c][1] == b && [a, b, c][2] == c;
  }

  /** A latest stop is pinned by one slot that reaches it and a bound on all others. */
  lemma StopIs(ts: seq<TS.Timeslot>, chs: set<Channel>, k: nat, v: int)
    requires k < |ts| && ts[k].channel in chs && ts[k].interval.stop == v
    requires forall j :: 0 <= j < |ts| && ts[j].channel in chs ==> ts[j].interval.stop <= v
    ensures TS.ChStopTime(ts, chs) == v
  {
    var m := TS.MaxStop(ts, chs);
    assert m.Some?;
    var k' :| 0 <= k' < |ts| && ts[k'].channel in chs && ts[k'].interval.stop == m.value;
  }

  /** An earliest start is pinned by one slot that reaches it and a bound on all others. */
  lemma StartIs(ts: seq<TS.Timeslot>, chs: set<Channel>, k: nat, v: int)
    requires k < |ts| && ts[k].channel in chs && ts[k].interval.start == v
    requires forall j :: 0 <= j < |ts| && ts[j].channel in chs ==> v <= ts[j].interval.start
    ensures TS.ChStartTime(ts, chs) == v
  {
    var m := TS.MinStart(ts, chs);
    assert m.Some?;
    var k' :| 0 <= k' < |ts| && ts[k'].channel in chs && ts[k'].interval.start == m.value;
  }

  /** With exactly one shared channel, `push_append` inserts at that channel's gap. */
  lemma OneCommonChannel(base: Schedule, other: Schedule, c: Channel)
    requires c in ChannelSet(base) && c in ChannelSet(other)
    requires forall d :: d in ChannelSet(base) && d in ChannelSet(other) ==> d == c
    ensures PushAppendTime(base, other) == Gap(base, other, c)
  {
    assert c in CommonChannels(base, other);
  }

  /** Second push: Y shares only d0 with X, whose content there ends at 10. */
  lemma SecondPushTime()
    ensures PushAppendTime(S1, Y) == 10
  {
    hide TimeslotsOf, Valid, LeftAlign, PushAppend, PushAppendTime, TS.Shift, TS.NoOverlap, Channels, CommonChannels;
    FirstPush();
    LeafFacts();
    ChannelsOfOne(XSlot);
    ChannelsOfTwo(YSlot0, YSlot1);
    StopIs([XSlot], {D0}, 0, 10);
    StartIs([YSlot0, YSlot1], {D0}, 0, 0);
    OneCommonChannel(S1, Y, D0);
  }

  lemma SecondPush()
    ensures PushAppend(S1, Y) == Ok(S2)
    ensures TimeslotsOf(S2) == [XSlot, YAt0, YAt1] && Valid(S2)
  {
    hide TimeslotsOf, Valid, LeftAlign, PushAppend, PushAppendTime, TS.Shift, TS.NoOverlap, Channels, CommonChannels, ChannelSet, ChStopTime, ChStartTime;
    FirstPush();
    LeafFacts();
    SecondPushTime();
    ShiftedY();
    PushAppendNeverCollides(S1, Y);
    var r := PushAppend(S1, Y);
    assert r.value == S2;
    assert TimeslotsOf(S2) == [XSlot] + [YAt0, YAt1];
  }

  lemma ShiftedY()
    ensures TS.Shift([YSlot0, YSlot1], 10) == [YAt0, YAt1]
  {
  }

  /** After two pushes the schedule uses d0 and d1, and its content on d1 ends at 20. */
  lemma S2Facts()
    ensures ChannelSet(S2) == {D0, D1} && ChStopTime(S2, {D1}) == 20 && Valid(S2)
    ensures TimeslotsOf(S2) == [XSlot, YAt0, YAt1]
  {
    hide TimeslotsOf, Valid, PushAppend, PushAppendTime, TS.ChStopTime;
    SecondPush();
    ChannelsOfThree(XSlot, YAt0, YAt1);
    S2StopOnD1();
  }

  lemma S2StopOnD1()
    ensures TS.ChStopTime([XSlot, YAt0, YAt1], {D1}) == 20
  {
    var ts := [XSlot, YAt0, YAt1];
    assert ts[0].channel !in {D1} && ts[1].channel !in {D1};
    StopIs(ts, {D1}, 2, 20);
  }

  lemma ZFacts()
    ensures ChannelSet(Z) == {D1} && ChStartTime(Z, {D1}) == 0 && Valid(Z)
    ensures TimeslotsOf(Z) == [ZSlot]
  {
    LeafFacts();
    ChannelsOfOne(ZSlot);
    StartIs([ZSlot], {D1}, 0, 0);
  }

  /** Third push: Z shares only d1 with the schedule, whose content there ends at 20. */
  lemma ThirdPushTime()
    ensures PushAppendTime(S2, Z) == 20
  {
    hide TimeslotsOf, PushAppend, PushAppendTime, Valid, ChannelSet, ChStopTime, ChStartTime;
    S2Facts();
    ZFacts();
    OneCommonChannel(S2, Z, D1);
  }

  lemma ThirdPush()
    ensures PushAppend(S2, Z) == Ok(S3)
    ensures TimeslotsOf(S3) == [XSlot, YAt0, YAt1, ZAt]
  {
    hide TimeslotsOf, Valid, LeftAlign, PushAppend, PushAppendTime, TS.Shift, TS.NoOverlap, Channels, CommonChannels, ChannelSet, ChStopTime, ChStartTime;
    ShiftedZ();
    S2Facts();
    ZFacts();
    ThirdPushTime();
    PushAppendNeverCollides(S2, Z);
    assert PushAppend(S2, Z).value == S3;
  }

  lemma ShiftedZ()
    ensures TS.Shift([ZSlot], 20) == [ZAt]
  {
  }

  lemma TwoLeftAligned()
    ensures LeftAlign([X, Y]) == Ok(S2)
  {
    hide TimeslotsOf, Valid, PushAppend, PushAppendTime, TS.Shift, TS.NoOverlap, Channels, CommonChannels, ChannelSet;
    FirstPush();
    SecondPush();
    assert [X, Y][..1] == [X];
  }

  /** The three collision-free components left-align to X at 0, Y at 10 and Z at 20. */
  lemma ThreeLeftAligned()
    ensures LeftAlign([X, Y, Z]) == Ok(S3)
    ensures TimeslotsOf(S3) == [XSlot, YAt0, YAt1, ZAt]
  {
    hide TimeslotsOf, Valid, PushAppend, PushAppendTime, TS.Shift, TS.NoOverlap, Channels, CommonChannels, ChannelSet, ChStopTime, ChStartTime;
    TwoLeftAligned();
    ThirdPush();
    assert [X, Y, Z][..2] == [X, Y];
  }

  lemma SlotsChannelList()
    ensures TS.ChannelList([XSlot, YAt0, YAt1, ZAt]) == [D0, D1]
  {
    var ts := [XSlot, YAt0, YAt1, ZAt];
    assert ts[..3] == [XSlot, YAt0, YAt1] && ts[..3][..2] == [XSlot, YAt0];
    assert [XSlot, YAt0][..1] == [XSlot] && [XSlot][..0] == [];
    assert TS.ChannelList([XSlot]) == [D0];
    assert TS.ChannelList([XSlot, YAt0]) == [D0];
    assert TS.ChannelList([XSlot, YAt0, YAt1]) == [D0, D1];
  }

  lemma ThreeChannels()
    ensures Channels(S3) == [D0, D1]
  {
    ThreeLeftAligned();
    SlotsChannelList();
    hide TimeslotsOf, LeftAlign, TS.ChannelList;
  }

  /** Latest stops and earliest starts of the four left-aligned slots, per channel. */
  lemma SlotBounds()
    ensures var ts := [XSlot, YAt0, YAt1, ZAt];
            TS.ChStopTime(ts, {D0}) == 20 && TS.ChStartTime(ts, {D0}) == 0 &&
            TS.ChStopTime(ts, {D1}) == 25 && TS.ChStartTime(ts, {D1}) == 10
  {
    var ts := [XSlot, YAt0, YAt1, ZAt];
    StopIs(ts, {D0}, 1, 20);
    StartIs(ts, {D0}, 0, 0);
    StopIs(ts, {D1}, 3, 25);
    StartIs(ts, {D1}, 2, 10);
  }

  /** d0 spans 20 and stops at 20; d1 spans 15 and stops at 25. */
  lemma ThreeMeasured()
    ensures ChannelStops(S3, [D0, D1]) == map[D0 := 20, D1 := 25]
    ensures MaxSpan(S3, [D0, D1]) == 20
  {
    hide TimeslotsOf, Valid, LeftAlign, PushAppend, PushAppendTime, TS.Shift, TS.NoOverlap, Channels, CommonChannels, ChannelSet, TS.ChStopTime, TS.ChStartTime;
    ThreeLeftAligned();
    SlotBounds();
    assert StopOn(S3, D0) == 20 && StartOn(S3, D0) == 0;
    assert StopOn(S3, D1) == 25 && StartOn(S3, D1) == 10;
    assert [D0, D1][..1] == [D0];
    assert [D0][..0] == [];
    assert ChannelStops(S3, [D0]) == map[D0 := 20];
    assert ChannelStops(S3, [D0, D1]) == ChannelStops(S3, [D0])[D1 := 25];
    assert MaxSpan(S3, [D0]) == 20;
    assert MaxSpan(S3, [D0, D1]) == 20;
  }

  lemma FlattenWrapped(x: Schedule, t: int)
    requires x.Instruction?
    ensures Flatten(Composite(None, [x], t), 0) == [(t, x)]
  {
    assert [x][..0] == [];
    assert FlattenChildren([x], t) == FlattenChildren([], t) + Flatten(x, t);
  }

  lemma ThreeFlattened()
    ensures Flatten(S3, 0) == [(0, X), (10, Y), (20, Z)]
  {
    FlattenWrapped(X, 0);
    FlattenWrapped(Y, 10);
    FlattenWrapped(Z, 20);
    assert [Empty, Composite(None, [X], 0)][..1] == [Empty];
    assert [Empty][..0] == [];
    assert FlattenChildren([Empty], 0) == FlattenChildren([], 0) + Flatten(Empty, 0);
    assert Flatten(S1, 0) == FlattenChildren([Empty], 0) + Flatten(Composite(None, [X], 0), 0);
    assert Flatten(S1, 0) == [(0, X)];
    assert [S1, Composite(None, [Y], 10)][..1] == [S1];
    assert [S1][..0] == [];
    assert FlattenChildren([S1], 0) == FlattenChildren([], 0) + Flatten(S1, 0);
    assert Flatten(S2, 0) == FlattenChildren([S1], 0) + Flatten(Composite(None, [Y], 10), 0);
    assert Flatten(S2, 0) == [(0, X), (10, Y)];
    assert [S2, Composite(None, [Z], 20)][..1] == [S2];
    assert [S2][..0] == [];
    assert FlattenChildren([S2], 0) == FlattenChildren([], 0) + Flatten(S2, 0);
    assert Flatten(S3, 0) == FlattenChildren([S2], 0) + Flatten(Composite(None, [Z], 20), 0);
  }

  const Stops := map[D0 := 20, D1 := 25]
  const XPlaced := Composite(None, [Composite(None, [X], 0)], 0)

  /** X's largest channel stop is 20, so it goes back to 20 - 20 + 0 = 0. */
  lemma PlaceX()
    ensures PlaceStep(Empty, (0, X), Stops, 20) == Ok(XPlaced)
    ensures TimeslotsOf(XPlaced) == [XSlot]
  {
    LeafFacts();
    assert MaxOver(Stops, [D0]) == Ok(20);
    assert TimeslotsOf(Empty) == [];
    TS.ShiftZero([XSlot]);
    assert [] + [Composite(None, [X], 0)] == [Composite(None, [X], 0)];
  }

  /** Y's largest channel stop is 25, so it goes to 20 - 25 + 10 = 5, over X on d0. */
  lemma PlaceYCollides()
    ensures PlaceStep(XPlaced, (10, Y), Stops, 20) == Err(ScheduleOverlap)
  {
    PlaceX();
    LeafFacts();
    assert [D0, D1][1..] == [D1];
    assert MaxOver(Stops, [D1]) == Ok(25);
    assert MaxOver(Stops, [D0, D1]) == Ok(25);
    var moved := TS.Shift([YSlot0, YSlot1], 5);
    assert moved[0] == TS.Timeslot(TS.Interval(5, 15), D0);
    var all := [XSlot] + moved;
    assert all[0] == XSlot && all[1] == moved[0];
    assert !TS.NoOverlap(all);
  }

  lemma ThreePlaced()
    ensures PlaceAll(Empty, [(0, X), (10, Y), (20, Z)], Stops, 20) == Err(ScheduleOverlap)
  {
    PlaceX();
    PlaceYCollides();
    var items := [(0, X), (10, Y), (20, Z)];
    assert items[1..] == [(10, Y), (20, Z)];
    assert PlaceAll(XPlaced, [(10, Y), (20, Z)], Stops, 20) == Err(ScheduleOverlap);
  }

  /**
   * Three collision-free components for which `right_align` raises the overlap
   * error: the largest channel span (20) is not the largest channel stop (25).
   */
  lemma RightAlignRaisesOnValidInput()
    ensures Valid(X) && Valid(Y) && Valid(Z)
    ensures RightAlignSpec([X, Y, Z]) == Err(ScheduleOverlap)
  {
    LeafFacts();
    ThreeLeftAligned();
    ThreeChannels();
    ThreeMeasured();
    ThreeFlattened();
    ThreePlaced();
  }
}
