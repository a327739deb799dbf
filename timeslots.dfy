/**
 * The timeslot collection a schedule derives its occupancy from: half-open
 * intervals paired with channels, an overlap check, a whole-collection shift and
 * per-channel earliest start and latest stop.
 */
module Timeslots {
  import opened Wrappers
  import opened PulseChannels
  import opened Seqs

  /** The half-open time range [start, stop). */
  datatype Interval = Interval(start: int, stop: int)

  /** "This channel is occupied during this interval." */
  datatype Timeslot = Timeslot(interval: Interval, channel: Channel)

  /** Two half-open intervals share at least one instant. */
  predicate Overlaps(a: Interval, b: Interval) {
    a.start < b.stop && b.start < a.stop
  }

  function ShiftInterval(i: Interval, t: int): Interval {
    Interval(i.start + t, i.stop + t)
  }

  function ShiftSlot(s: Timeslot, t: int): Timeslot {
    Timeslot(ShiftInterval(s.interval, t), s.channel)
  }

  /** The whole-collection shift: `t` is added to every interval. */
  function Shift(ts: seq<Timeslot>, t: int): (r: seq<Timeslot>)
    ensures |r| == |ts|
    ensures forall k :: 0 <= k < |ts| ==> r[k] == ShiftSlot(ts[k], t)
  {
    seq(|ts|, k requires 0 <= k < |ts| => ShiftSlot(ts[k], t))
  }

  /** The collection invariant: no two timeslots of one channel overlap. */
  predicate NoOverlap(ts: seq<Timeslot>) {
    forall i, j :: 0 <= i < j < |ts| && ts[i].channel == ts[j].channel ==>
      !Overlaps(ts[i].interval, ts[j].interval)
  }

  /** Every timeslot starts at or after time 0. */
  predicate StartsNonNegative(ts: seq<Timeslot>) {
    forall k :: 0 <= k < |ts| ==> 0 <= ts[k].interval.start
  }

  /** Every interval has start <= stop. */
  predicate WellFormed(ts: seq<Timeslot>) {
    forall k :: 0 <= k < |ts| ==> ts[k].interval.start <= ts[k].interval.stop
  }

  /** The channels that occur in the collection. */
  function Channels(ts: seq<Timeslot>): set<Channel> {
    set k | 0 <= k < |ts| :: ts[k].channel
  }

  /** The channels in order of first appearance (the key order of the per-channel table). */
  function ChannelList(ts: seq<Timeslot>): (r: seq<Channel>)
    ensures forall c :: c in r <==> c in Channels(ts)
    ensures Distinct(r)
    decreases |ts|
  {
    if ts == [] then []
    else
      var prefix := ChannelList(ts[..|ts| - 1]);
      var c := ts[|ts| - 1].channel;
      assert forall k :: 0 <= k < |ts| - 1 ==> ts[..|ts| - 1][k] == ts[k];
      if c in prefix then prefix else prefix + [c]
  }

  /** The earliest start among the timeslots whose channel is in `chs`, if there is one. */
  function MinStart(ts: seq<Timeslot>, chs: set<Channel>): (r: Option<int>)
    ensures r.None? <==> forall k :: 0 <= k < |ts| ==> ts[k].channel !in chs
    ensures r.Some? ==> exists k :: 0 <= k < |ts| && ts[k].channel in chs && ts[k].interval.start == r.value
    ensures r.Some? ==> forall k :: 0 <= k < |ts| && ts[k].channel in chs ==> r.value <= ts[k].interval.start
    decreases |ts|
  {
    if ts == [] then None
    else
      var rest := MinStart(ts[1..], chs);
      assert forall k :: 1 <= k < |ts| ==> ts[1..][k - 1] == ts[k];
      if ts[0].channel !in chs then rest
      else if rest.None? || ts[0].interval.start <= rest.value then Some(ts[0].interval.start)
      else rest
  }

  /** The latest stop among the timeslots whose channel is in `chs`, if there is one. */
  function MaxStop(ts: seq<Timeslot>, chs: set<Channel>): (r: Option<int>)
    ensures r.None? <==> forall k :: 0 <= k < |ts| ==> ts[k].channel !in chs
    ensures r.Some? ==> exists k :: 0 <= k < |ts| && ts[k].channel in chs && ts[k].interval.stop == r.value
    ensures r.Some? ==> forall k :: 0 <= k < |ts| && ts[k].channel in chs ==> ts[k].interval.stop <= r.value
    decreases |ts|
  {
    if ts == [] then None
    else
      var rest := MaxStop(ts[1..], chs);
      assert forall k :: 1 <= k < |ts| ==> ts[1..][k - 1] == ts[k];
      if ts[0].channel !in chs then rest
      else if rest.None? || ts[0].interval.stop >= rest.value then Some(ts[0].interval.stop)
      else rest
  }

  /** `ch_start_time(*chs)`: the earliest start on the given channels, 0 when none of them is used. */
  function ChStartTime(ts: seq<Timeslot>, chs: set<Channel>): int {
    MinStart(ts, chs).GetOr(0)
  }

  /** `ch_stop_time(*chs)`: the latest stop on the given channels, 0 when none of them is used. */
  function ChStopTime(ts: seq<Timeslot>, chs: set<Channel>): int {
    MaxStop(ts, chs).GetOr(0)
  }

  /** `start_time`: the earliest start over all channels of the collection. */
  function StartTime(ts: seq<Timeslot>): int {
    ChStartTime(ts, Channels(ts))
  }

  /** `stop_time`: the latest stop over all channels of the collection. */
  function StopTime(ts: seq<Timeslot>): int {
    ChStopTime(ts, Channels(ts))
  }

  /** `duration`: measured from time 0, so it is the stop time. */
  function Duration(ts: seq<Timeslot>): int {
    StopTime(ts)
  }

  // ---------------------------------------------------------------------------
  // Lemmas about the collection operations
  // ---------------------------------------------------------------------------

  /** Shifting by 0 leaves the collection unchanged. */
  lemma ShiftZero(ts: seq<Timeslot>)
    ensures Shift(ts, 0) == ts
  {
  }

  /** Shifts add up: shifting by `a` and then by `b` is shifting by `a + b`. */
  lemma ShiftShift(ts: seq<Timeslot>, a: int, b: int)
    ensures Shift(Shift(ts, a), b) == Shift(ts, a + b)
  {
  }

  /** Shifting distributes over concatenation. */
  lemma ShiftConcat(a: seq<Timeslot>, b: seq<Timeslot>, t: int)
    ensures Shift(a + b, t) == Shift(a, t) + Shift(b, t)
  {
  }

  /** A shift keeps the set of channels. */
  lemma ShiftChannelSet(ts: seq<Timeslot>, t: int)
    ensures Channels(Shift(ts, t)) == Channels(ts)
  {
    var sh := Shift(ts, t);
    forall c | c in Channels(ts) ensures c in Channels(sh) {
      var k :| 0 <= k < |ts| && ts[k].channel == c;
      assert sh[k].channel == c;
    }
  }

  /** A shift keeps the channels' first-appearance order. */
  lemma {:induction false} ShiftChannelList(ts: seq<Timeslot>, t: int)
    ensures ChannelList(Shift(ts, t)) == ChannelList(ts)
    decreases |ts|
  {
    if ts != [] {
      var sh := Shift(ts, t);
      assert sh[..|sh| - 1] == Shift(ts[..|ts| - 1], t);
      assert sh[|sh| - 1].channel == ts[|ts| - 1].channel;
      ShiftChannelList(ts[..|ts| - 1], t);
    }
  }

  /** The channels of a concatenation are the channels of its parts. */
  lemma ConcatChannels(a: seq<Timeslot>, b: seq<Timeslot>)
    ensures Channels(a + b) == Channels(a) + Channels(b)
  {
    var ab := a + b;
    forall c | c in Channels(ab) ensures c in Channels(a) + Channels(b) {
      var k :| 0 <= k < |ab| && ab[k].channel == c;
      if k < |a| { assert a[k] == ab[k]; } else { assert b[k - |a|] == ab[k]; }
    }
    forall c | c in Channels(a) + Channels(b) ensures c in Channels(ab) {
      if c in Channels(a) {
        var k :| 0 <= k < |a| && a[k].channel == c;
        assert ab[k] == a[k];
      } else {
        var k :| 0 <= k < |b| && b[k].channel == c;
        assert ab[|a| + k] == b[k];
      }
    }
  }

  /** A shift moves every occupied interval, and so preserves the absence of overlaps both ways. */
  lemma ShiftNoOverlap(ts: seq<Timeslot>, t: int)
    ensures NoOverlap(Shift(ts, t)) <==> NoOverlap(ts)
  {
  }

  /** A shift moves every start by `t`, so non-negative starts stay non-negative for `t >= 0`. */
  lemma ShiftStartsNonNegative(ts: seq<Timeslot>, t: int)
    requires StartsNonNegative(ts) && 0 <= t
    ensures StartsNonNegative(Shift(ts, t))
  {
  }
  /** Both parts start at or after 0 exactly when their concatenation does. */
  lemma ConcatStartsNonNegative(a: seq<Timeslot>, b: seq<Timeslot>)
    ensures StartsNonNegative(a + b) <==> StartsNonNegative(a) && StartsNonNegative(b)
  {
    if StartsNonNegative(a + b) {
      assert forall k :: 0 <= k < |a| ==> a[k] == (a + b)[k];
      assert forall k :: 0 <= k < |b| ==> b[k] == (a + b)[|a| + k];
    }
  }


  /** Two collections combine without collision when no slot of one overlaps a slot of the other. */
  predicate Compatible(a: seq<Timeslot>, b: seq<Timeslot>) {
    forall i, j :: 0 <= i < |a| && 0 <= j < |b| && a[i].channel == b[j].channel ==>
      !Overlaps(a[i].interval, b[j].interval)
  }

  /** Merging: the concatenation is collision-free exactly when both parts are and they are compatible. */
  lemma ConcatNoOverlap(a: seq<Timeslot>, b: seq<Timeslot>)
    ensures NoOverlap(a + b) <==> NoOverlap(a) && NoOverlap(b) && Compatible(a, b)
  {
    var ab := a + b;
    if NoOverlap(ab) {
      forall i, j | 0 <= i < j < |a| && a[i].channel == a[j].channel
        ensures !Overlaps(a[i].interval, a[j].interval)
      {
        assert ab[i] == a[i] && ab[j] == a[j];
      }
      forall i, j | 0 <= i < j < |b| && b[i].channel == b[j].channel
        ensures !Overlaps(b[i].interval, b[j].interval)
      {
        assert ab[|a| + i] == b[i] && ab[|a| + j] == b[j];
      }
      forall i, j | 0 <= i < |a| && 0 <= j < |b| && a[i].channel == b[j].channel
        ensures !Overlaps(a[i].interval, b[j].interval)
      {
        assert ab[i] == a[i] && ab[|a| + j] == b[j];
      }
    }
    if NoOverlap(a) && NoOverlap(b) && Compatible(a, b) {
      forall i, j | 0 <= i < j < |ab| && ab[i].channel == ab[j].channel
        ensures !Overlaps(ab[i].interval, ab[j].interval)
      {
        if j < |a| {
          assert ab[i] == a[i] && ab[j] == a[j];
        } else if i < |a| {
          assert ab[i] == a[i] && ab[j] == b[j - |a|];
        } else {
          assert ab[i] == b[i - |a|] && ab[j] == b[j - |a|];
        }
      }
    }
  }

  /** The latest stop of a shifted collection is shifted by the same amount. */
  lemma ChStopShift(ts: seq<Timeslot>, chs: set<Channel>, t: int)
    ensures MaxStop(Shift(ts, t), chs).None? <==> MaxStop(ts, chs).None?
    ensures MaxStop(ts, chs).Some? ==> MaxStop(Shift(ts, t), chs).value == MaxStop(ts, chs).value + t
  {
    var m, sm := MaxStop(ts, chs), MaxStop(Shift(ts, t), chs);
    if m.Some? && sm.Some? {
      var k :| 0 <= k < |ts| && ts[k].channel in chs && ts[k].interval.stop == m.value;
      assert Shift(ts, t)[k].interval.stop == m.value + t;
      var k' :| 0 <= k' < |ts| && Shift(ts, t)[k'].channel in chs && Shift(ts, t)[k'].interval.stop == sm.value;
      assert ts[k'].interval.stop <= m.value;
    }
  }

  /** The earliest start of a shifted collection is shifted by the same amount. */
  lemma ChStartShift(ts: seq<Timeslot>, chs: set<Channel>, t: int)
    ensures MinStart(Shift(ts, t), chs).None? <==> MinStart(ts, chs).None?
    ensures MinStart(ts, chs).Some? ==> MinStart(Shift(ts, t), chs).value == MinStart(ts, chs).value + t
  {
    var m, sm := MinStart(ts, chs), MinStart(Shift(ts, t), chs);
    if m.Some? && sm.Some? {
      var k :| 0 <= k < |ts| && ts[k].channel in chs && ts[k].interval.start == m.value;
      assert Shift(ts, t)[k].interval.start == m.value + t;
      var k' :| 0 <= k' < |ts| && Shift(ts, t)[k'].channel in chs && Shift(ts, t)[k'].interval.start == sm.value;
      assert ts[k'].interval.start >= m.value;
    }
  }

  /** The larger of two optional values, absent only when both are. */
  function OMax(x: Option<int>, y: Option<int>): Option<int> {
    if x.None? then y else if y.None? then x else Some(if x.value >= y.value then x.value else y.value)
  }

  /** A value `d >= 0` past an optional stop (0 when absent) is the larger of the two. */
  lemma OMaxAfter(m: Option<int>, d: nat)
    ensures OMax(m, Some(m.GetOr(0) + d)) == Some(m.GetOr(0) + d)
  {
  }

  /** The smaller of two optional values, absent only when both are. */
  function OMin(x: Option<int>, y: Option<int>): Option<int> {
    if x.None? then y else if y.None? then x else Some(if x.value <= y.value then x.value else y.value)
  }

  /** The latest stop of a concatenation is the larger of the parts' latest stops. */
  lemma {:induction false} MaxStopConcat(a: seq<Timeslot>, b: seq<Timeslot>, chs: set<Channel>)
    ensures MaxStop(a + b, chs) == OMax(MaxStop(a, chs), MaxStop(b, chs))
    decreases |a|
  {
    if a != [] {
      assert (a + b)[1..] == a[1..] + b;
      MaxStopConcat(a[1..], b, chs);
    } else {
      assert a + b == b;
    }
  }

  /** The earliest start of a concatenation is the smaller of the parts' earliest starts. */
  lemma {:induction false} MinStartConcat(a: seq<Timeslot>, b: seq<Timeslot>, chs: set<Channel>)
    ensures MinStart(a + b, chs) == OMin(MinStart(a, chs), MinStart(b, chs))
    decreases |a|
  {
    if a != [] {
      assert (a + b)[1..] == a[1..] + b;
      MinStartConcat(a[1..], b, chs);
    } else {
      assert a + b == b;
    }
  }
}
