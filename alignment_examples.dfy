/**
 * A worked instance of `right_align`: a 100-sample pulse on d0 and a 20-sample pulse
 * on d1 end together, the short one moved to start at 80.
 */
module AlignmentExamples {
  import opened Wrappers
  import opened Errors
  import opened PulseChannels
  import opened Schedules
  import opened Alignment
  import TS = Timeslots

  const D0 := Channel(DriveChannel, 0)
  const D1 := Channel(DriveChannel, 1)
  const Long := Instruction(None, 100, [D0], Play("long"))
  const Short := Instruction(None, 20, [D1], Play("short"))
  const LongSlot := TS.Timeslot(TS.Interval(0, 100), D0)
  const ShortSlot := TS.Timeslot(TS.Interval(0, 20), D1)
  const LongFirst := Composite(None, [Empty, Composite(None, [Long], 0)], 0)
  const BothLeft := Composite(None, [LongFirst, Composite(None, [Short], 0)], 0)

  lemma LeafFacts()
    ensures TimeslotsOf(Long) == [LongSlot] && Valid(Long)
    ensures TimeslotsOf(Short) == [ShortSlot] && Valid(Short)
  {
    assert TimeslotsOf(Long) == LeafSlots(100, [D0]);
    assert TimeslotsOf(Short) == LeafSlots(20, [D1]);
  }

  /** The first push: the long pulse onto `Schedule()`, at time 0. */
  lemma LongAligned()
    ensures LeftAlign([Long]) == Ok(LongFirst)
    ensures TimeslotsOf(LongFirst) == [LongSlot] && Valid(LongFirst)
  {
    LeafFacts();
    assert [Long][..0] == [];
    assert LeftAlign([Long]) == PushAppend(Empty, Long);
    assert TimeslotsOf(Empty) == [];
    assert Channels(Empty) == [];
    assert CommonChannels(Empty, Long) == [];
    hide TimeslotsOf, LeftAlign, Channels, CommonChannels;
    PushAppendNeverCollides(Empty, Long);
    TS.ShiftZero([LongSlot]);
  }

  /** The second push: the short pulse shares no channel with the long one, so it also lands at 0. */
  lemma ShortPushed()
    ensures PushAppend(LongFirst, Short) == Ok(BothLeft)
    ensures TimeslotsOf(BothLeft) == [LongSlot, ShortSlot]
  {
    LongAligned();
    LeafFacts();
    assert [LongSlot][..0] == [];
    assert Channels(LongFirst) == TS.ChannelList([LongSlot]) == [D0];
    assert TimeslotsOf(Short)[0].channel == D1;
    assert D1 in ChannelSet(Short);
    assert ChannelSet(Short) == {D1};
    assert [D0][1..] == [];
    assert KeepIn([D0], {D1}) == KeepIn([], {D1});
    assert CommonChannels(LongFirst, Short) == [];
    hide TimeslotsOf, LeftAlign, Channels, CommonChannels, ChannelSet, KeepIn;
    PushAppendNeverCollides(LongFirst, Short);
    TS.ShiftZero([ShortSlot]);
  }

  lemma TwoPulsesLeftAligned()
    ensures LeftAlign([Long, Short]) == Ok(BothLeft)
    ensures TimeslotsOf(BothLeft) == [LongSlot, ShortSlot]
  {
    LongAligned();
    ShortPushed();
    assert [Long, Short][..1] == [Long];
    hide PushAppend, TimeslotsOf;
    assert LeftAlign([Long, Short]) == PushAppend(LongFirst, Short);
  }

  /** Per-channel stops and starts of the two left-aligned slots. */
  lemma SlotBounds()
    ensures TS.ChStopTime([LongSlot, ShortSlot], {D0}) == 100 && TS.ChStartTime([LongSlot, ShortSlot], {D0}) == 0
    ensures TS.ChStopTime([LongSlot, ShortSlot], {D1}) == 20 && TS.ChStartTime([LongSlot, ShortSlot], {D1}) == 0
  {
    assert [LongSlot, ShortSlot][1..] == [ShortSlot];
    assert [ShortSlot][1..] == [];
    assert TS.MaxStop([ShortSlot], {D1}) == Some(20);
    assert TS.MinStart([ShortSlot], {D1}) == Some(0);
    assert TS.MaxStop([ShortSlot], {D0}) == None;
    assert TS.MinStart([ShortSlot], {D0}) == None;
  }

  lemma TwoPulsesStops()
    ensures StopOn(BothLeft, D0) == 100 && StartOn(BothLeft, D0) == 0
    ensures StopOn(BothLeft, D1) == 20 && StartOn(BothLeft, D1) == 0
  {
    ShortPushed();
    SlotBounds();
    hide TimeslotsOf, PushAppend, TS.ChStopTime, TS.ChStartTime;
  }

  lemma TwoPulsesChannels()
    ensures Channels(BothLeft) == [D0, D1]
  {
    ShortPushed();
    assert [LongSlot, ShortSlot][..1] == [LongSlot];
    assert [LongSlot][..0] == [];
    assert TS.ChannelList([LongSlot]) == [D0];
    assert TS.ChannelList([LongSlot, ShortSlot]) == [D0, D1];
    hide TimeslotsOf, PushAppend, TS.ChannelList;
  }

  lemma TwoPulsesMeasured()
    ensures ChannelStops(BothLeft, [D0, D1]) == map[D0 := 100, D1 := 20]
    ensures MaxSpan(BothLeft, [D0, D1]) == 100
  {
    TwoPulsesStops();
    assert [D0, D1][..1] == [D0];
    assert [D0][..0] == [];
    assert ChannelStops(BothLeft, [D0]) == map[D0 := 100];
    assert ChannelStops(BothLeft, [D0, D1]) == ChannelStops(BothLeft, [D0])[D1 := 20];
    assert MaxSpan(BothLeft, [D0]) == 100;
    assert MaxSpan(BothLeft, [D0, D1]) == 100;
  }

  lemma TwoPulsesFlattened()
    ensures Flatten(BothLeft, 0) == [(0, Long), (0, Short)]
  {
    assert [Empty, Composite(None, [Long], 0)][..1] == [Empty];
    assert [Empty][..0] == [];
    assert [Long][..0] == [];
    assert FlattenChildren([], 0) == [];
    assert FlattenChildren([Long], 0) == FlattenChildren([], 0) + Flatten(Long, 0);
    assert Flatten(Composite(None, [Long], 0), 0) == [(0, Long)];
    assert FlattenChildren([Empty], 0) == [];
    assert Flatten(LongFirst, 0) == [(0, Long)];
    assert [LongFirst, Composite(None, [Short], 0)][..1] == [LongFirst];
    assert [LongFirst][..0] == [];
    assert [Short][..0] == [];
    assert FlattenChildren([Short], 0) == FlattenChildren([], 0) + Flatten(Short, 0);
    assert Flatten(Composite(None, [Short], 0), 0) == [(0, Short)];
    assert FlattenChildren([Empty], 0) == FlattenChildren([], 0) + Flatten(Empty, 0);
    assert FlattenChildren([Empty, Composite(None, [Long], 0)], 0) == FlattenChildren([Empty], 0) + Flatten(Composite(None, [Long], 0), 0);
    assert FlattenChildren([LongFirst], 0) == FlattenChildren([], 0) + Flatten(LongFirst, 0);
    assert FlattenChildren([LongFirst, Composite(None, [Short], 0)], 0) == FlattenChildren([LongFirst], 0) + Flatten(Composite(None, [Short], 0), 0);
  }

  const LongPlaced := Composite(None, [Composite(None, [Long], 0)], 0)
  const BothRight := Composite(None, [Composite(None, [Long], 0), Composite(None, [Short], 80)], 0)

  lemma PlaceLong()
    ensures PlaceStep(Empty, (0, Long), map[D0 := 100, D1 := 20], 100) == Ok(LongPlaced)
    ensures TimeslotsOf(LongPlaced) == [LongSlot]
  {
    assert MaxOver(map[D0 := 100, D1 := 20], [D0]) == Ok(100);
    assert TimeslotsOf(Empty) == [];
    TS.ShiftZero([LongSlot]);
    assert TimeslotsOf(Long) == [LongSlot];
    assert [] + [Composite(None, [Long], 0)] == [Composite(None, [Long], 0)];
  }

  const Moved := TS.Timeslot(TS.Interval(80, 100), D1)

  lemma MovedFits()
    ensures TS.NoOverlap([LongSlot] + [Moved])
  {
    assert [LongSlot] + [Moved] == [LongSlot, Moved];
  }

  lemma InsertShort()
    ensures InsertMut(LongPlaced, 80, Short) == Ok(BothRight)
  {
    PlaceLong();
    MovedFits();
    assert TimeslotsOf(Short) == [ShortSlot];
    assert TS.Shift([ShortSlot], 80) == [Moved];
    assert LongPlaced.children + [Composite(None, [Short], 80)] == BothRight.children;
  }

  lemma PlaceShort()
    ensures PlaceStep(LongPlaced, (0, Short), map[D0 := 100, D1 := 20], 100) == Ok(BothRight)
  {
    assert MaxOver(map[D0 := 100, D1 := 20], [D1]) == Ok(20);
    InsertShort();
  }

  lemma TwoPulsesPlaced()
    ensures PlaceAll(Empty, [(0, Long), (0, Short)], map[D0 := 100, D1 := 20], 100) == Ok(BothRight)
  {
    PlaceLong();
    PlaceShort();
    assert [(0, Long), (0, Short)][1..] == [(0, Short)];
    assert [(0, Short)][1..] == [];
    var cd := map[D0 := 100, D1 := 20];
    assert PlaceAll(BothRight, [], cd, 100) == Ok(BothRight);
    assert PlaceAll(LongPlaced, [(0, Short)], cd, 100) == PlaceAll(BothRight, [], cd, 100);
    assert PlaceAll(Empty, [(0, Long), (0, Short)], cd, 100) == PlaceAll(LongPlaced, [(0, Short)], cd, 100);
  }

  lemma RightAlignTwoPulses()
    ensures RightAlignSpec([Long, Short]) == Ok(BothRight)
  {
    TwoPulsesLeftAligned();
    TwoPulsesChannels();
    TwoPulsesMeasured();
    TwoPulsesFlattened();
    TwoPulsesPlaced();
  }
}
