/** Channels: opaque resource lanes identified by their concrete class and index. */
module PulseChannels {
  import Strings

  /** The concrete channel classes a channel can belong to. */
  datatype ChannelKind =
    | DriveChannel
    | MeasureChannel
    | AcquireChannel
    | ControlChannel
    | MemorySlot
    | RegisterSlot
    | SnapshotChannel

  /** A channel object: its concrete class (Python's `type(self)`) and its index. */
  datatype Channel = Channel(kind: ChannelKind, index: int)

  /** `PulseChannel.__eq__`: the same concrete class and the same index. */
  predicate Eq(a: Channel, b: Channel): (r: bool)
    ensures r <==> a == b
    ensures r ==> a.index == b.index
  {
    a.kind == b.kind && a.index == b.index
  }

  /** `PulseChannel.__hash__`: the builtin hash of the pair (class, index), given as `tupleHash`. */
  function Hash(c: Channel, tupleHash: (ChannelKind, int) -> int): int {
    tupleHash(c.kind, c.index)
  }

  /** Channels of different classes are unequal, whatever their indices. */
  lemma DifferentKindsDiffer(a: Channel, b: Channel)
    requires a.kind != b.kind
    ensures !Eq(a, b)
  {
  }

  /** Channels of one class with different indices are unequal. */
  lemma DifferentIndicesDiffer(a: Channel, b: Channel)
    requires a.index != b.index
    ensures !Eq(a, b)
  {
  }

  /** `__eq__` is an equivalence relation: reflexive, symmetric and transitive. */
  lemma EqIsEquivalence(a: Channel, b: Channel, c: Channel)
    ensures Eq(a, a)
    ensures Eq(a, b) ==> Eq(b, a)
    ensures Eq(a, b) && Eq(b, c) ==> Eq(a, c)
  {
  }

  /** Equal channels hash equally, for every hash of the pair. */
  lemma EqualChannelsHashEqually(a: Channel, b: Channel, tupleHash: (ChannelKind, int) -> int)
    requires Eq(a, b)
    ensures Hash(a, tupleHash) == Hash(b, tupleHash)
  {
  }

  /**
   * `PulseChannel.__str__` as written: `'%s%d'.format(prefix, index)` applies
   * `str.format` to a `%`-style template, which has no `{}` fields, so the
   * template comes back unchanged.
   */
  function StrAsWritten(c: Channel): (r: string)
    ensures r == "%s%d"
  {
    "%s%d"
  }

  /** `name()` as written: `str(self)`. */
  function NameAsWritten(c: Channel): (r: string)
    ensures r == StrAsWritten(c)
  {
    StrAsWritten(c)
  }

  /** As written, two different channels share one name. */
  lemma NameAsWrittenCollides()
    ensures Channel(DriveChannel, 0) != Channel(DriveChannel, 1)
    ensures NameAsWritten(Channel(DriveChannel, 0)) == NameAsWritten(Channel(DriveChannel, 1))
  {
  }

  /**
   * `__str__` as intended: the class prefix (a class attribute, given as
   * `prefix`) followed by the decimal index.
   */
  function Str(c: Channel, prefix: ChannelKind -> string): (r: string)
    ensures |r| > |prefix(c.kind)| && r[..|prefix(c.kind)|] == prefix(c.kind)
    ensures r[|prefix(c.kind)|..] == Strings.SignedDecimal(c.index)
  {
    prefix(c.kind) + Strings.SignedDecimal(c.index)
  }

  /** `name()` as intended: `str(self)`. */
  function Name(c: Channel, prefix: ChannelKind -> string): (r: string)
    ensures r == Str(c, prefix)
  {
    Str(c, prefix)
  }

  /** As intended, channels of one class with different indices have different names. */
  lemma NamesIdentifyIndices(a: Channel, b: Channel, prefix: ChannelKind -> string)
    requires a.kind == b.kind && a.index != b.index
    ensures Name(a, prefix) != Name(b, prefix)
  {
    if Name(a, prefix) == Name(b, prefix) {
      var p := prefix(a.kind);
      assert Strings.SignedDecimal(a.index) == Name(a, prefix)[|p|..];
      assert Strings.SignedDecimal(b.index) == Name(b, prefix)[|p|..];
      Strings.SignedDecimalInjective(a.index, b.index);
    }
  }
}
