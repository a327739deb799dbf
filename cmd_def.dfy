/**
 * The command-definition table: a two-level dictionary from command name to
 * qubit tuple to schedule, changed in place by `add` and `pop`. Python dicts
 * keep insertion order, so the object keeps the order of the names and, under
 * each name, the order of its qubit tuples next to the maps themselves.
 */
module CommandDefinitions {
  import opened Wrappers
  import opened Errors
  import opened Schedules
  import opened Seqs

  /** A Python value passed where qubits are expected: an `int` or anything else. */
  datatype PyValue = PyInt(i: int) | PyOther

  /** The `qubits` argument: a single value, or an iterable of values. */
  datatype QubitsArg = Scalar(x: PyValue) | Many(xs: seq<PyValue>)

  /**
   * A `ParameterizedSchedule`: its internals are not shown; it is kept as the
   * schedules it wraps, its name and its parameter names.
   */
  datatype ParameterizedSchedule = ParameterizedSchedule(schedules: seq<Schedule>, name: Option<string>, parameters: seq<string>)

  /** What `add` accepts: a plain `Schedule` or a `ParameterizedSchedule`. */
  datatype Definition = Plain(schedule: Schedule) | Parameterized(p: ParameterizedSchedule)

  /** Every element of an iterable is an `int`. */
  predicate AllInts(xs: seq<PyValue>) {
    forall k :: 0 <= k < |xs| ==> xs[k].PyInt?
  }

  /** The integers of an all-`int` sequence. */
  function Ints(xs: seq<PyValue>): (r: seq<int>)
    requires AllInts(xs)
    ensures |r| == |xs| && forall k :: 0 <= k < |xs| ==> r[k] == xs[k].i
  {
    if xs == [] then [] else Ints(xs[..|xs| - 1]) + [xs[|xs| - 1].i]
  }

  /**
   * `_to_qubit_tuple`: `tuple(q)` for an iterable; a non-iterable `q` raises TypeError
   * inside and becomes `(q,)`; then every element must be an `int`.
   */
  function ToQubitTuple(q: QubitsArg): (r: Result<seq<int>, Error>)
    ensures q.Scalar? && q.x.PyInt? ==> r == Ok([q.x.i])
    ensures q.Scalar? && q.x.PyOther? ==> r == Err(QubitsNotIntegers)
    ensures q.Many? ==> (r.Ok? <==> AllInts(q.xs))
    ensures q.Many? && r.Ok? ==> |r.value| == |q.xs| && forall k :: 0 <= k < |q.xs| ==> r.value[k] == q.xs[k].i
    ensures r.Err? ==> r.error == QubitsNotIntegers
  {
    var t := if q.Scalar? then [q.x] else q.xs;
    if AllInts(t) then
      assert q.Scalar? ==> Ints(t) == [t[0].i];
      Ok(Ints(t))
    else Err(QubitsNotIntegers)
  }

  /** `0` and `(0,)` denote the same qubit key. */
  lemma ScalarIsOneTuple(i: int)
    ensures ToQubitTuple(Scalar(PyInt(i))) == ToQubitTuple(Many([PyInt(i)]))
  {
    assert AllInts([PyInt(i)]);
    assert Ints([PyInt(i)]) == [i];
  }

  /** `add` stores a plain `Schedule` as `ParameterizedSchedule(schedule, name=schedule.name)`. */
  function Wrap(d: Definition): (r: Definition)
    ensures r.Parameterized?
    ensures d.Parameterized? ==> r == d
    ensures d.Plain? ==> r.p.schedules == [d.schedule] && r.p.name == d.schedule.name
  {
    match d
    case Plain(s) => Parameterized(ParameterizedSchedule([s], s.name, []))
    case Parameterized(_) => d
  }

  /** `xs` without the element `x`, order kept. */
  function Remove<T(==, !new)>(xs: seq<T>, x: T): (r: seq<T>)
    ensures forall y :: y in r <==> y in xs && y != x
    ensures Distinct(xs) ==> Distinct(r)
  {
    if xs == [] then []
    else if xs[|xs| - 1] == x then Remove(xs[..|xs| - 1], x)
    else
      var front, last := xs[..|xs| - 1], xs[|xs| - 1];
      assert Distinct(xs) ==> Distinct(front) && last !in front by {
        if Distinct(xs) {
          forall k | 0 <= k < |front| ensures front[k] != last {
            assert front[k] == xs[k];
          }
        }
      }
      Remove(front, x) + [last]
  }

  /** `xs` with `x` added at the end unless it is there: a dict key's insertion order. */
  function AddKey<T(==, !new)>(xs: seq<T>, x: T): (r: seq<T>)
    ensures Distinct(xs) ==> Distinct(r)
    ensures forall y :: y in r <==> y in xs || y == x
  {
    if x in xs then xs else xs + [x]
  }

  /** The orders list exactly the keys, once each, and every stored schedule is parameterized. */
  ghost predicate TableValid(cmdDict: map<string, map<seq<int>, Definition>>, names: seq<string>, qubitOrder: map<string, seq<seq<int>>>) {
    Distinct(names) &&
    (forall n :: n in names <==> n in cmdDict) &&
    qubitOrder.Keys == cmdDict.Keys &&
    (forall n :: n in cmdDict ==> Distinct(qubitOrder[n]) && forall q :: q in qubitOrder[n] <==> q in cmdDict[n]) &&
    (forall n, q :: n in cmdDict && q in cmdDict[n] ==> cmdDict[n][q].Parameterized?)
  }

  /** Storing a parameterized schedule under a (possibly new) name and qubit tuple keeps the table well formed. */
  lemma AddKeepsValid(cmdDict: map<string, map<seq<int>, Definition>>, names: seq<string>, qubitOrder: map<string, seq<seq<int>>>,
                      n: string, q: seq<int>, d: Definition)
    requires TableValid(cmdDict, names, qubitOrder) && d.Parameterized?
    ensures var inner := if n in cmdDict then cmdDict[n] else map[];
            var order := if n in qubitOrder then qubitOrder[n] else [];
            TableValid(cmdDict[n := inner[q := d]], AddKey(names, n), qubitOrder[n := AddKey(order, q)])
  {
  }

  /** Removing one qubit tuple under an existing name keeps the table well formed. */
  lemma RemoveKeepsValid(cmdDict: map<string, map<seq<int>, Definition>>, names: seq<string>, qubitOrder: map<string, seq<seq<int>>>,
                         n: string, q: seq<int>)
    requires TableValid(cmdDict, names, qubitOrder) && n in cmdDict
    ensures TableValid(cmdDict[n := cmdDict[n] - {q}], names, qubitOrder[n := Remove(qubitOrder[n], q)])
  {
  }

  /** The entry `e` of the `CmdDef(schedules)` dict has the key `(n, *q)`. */
  predicate Carries(e: (string, seq<PyValue>, Definition), n: string, q: seq<int>) {
    AllInts(e.1) && e.0 == n && Ints(e.1) == q
  }

  /** No entry of `s` before index `i` has the key `(n, *q)`. */
  predicate NoCarrier(s: seq<(string, seq<PyValue>, Definition)>, n: string, q: seq<int>, i: int)
    requires 0 <= i <= |s|
  {
    forall j :: 0 <= j < i ==> !Carries(s[j], n, q)
  }

  /** Entry `k` is the last one before index `i` with its key, so its definition is the one kept. */
  predicate LastCarrier(s: seq<(string, seq<PyValue>, Definition)>, k: int, i: int)
    requires 0 <= k < i <= |s|
  {
    AllInts(s[k].1) && forall j :: k < j < i ==> !Carries(s[j], s[k].0, Ints(s[k].1))
  }

  /** Each entry of `s` before `i` that is the last with its key has its definition stored in `dict`. */
  ghost predicate StoresLast(s: seq<(string, seq<PyValue>, Definition)>, i: int, dict: map<string, map<seq<int>, Definition>>)
    requires 0 <= i <= |s|
  {
    forall k :: 0 <= k < i && LastCarrier(s, k, i) ==>
      s[k].0 in dict && Ints(s[k].1) in dict[s[k].0] && dict[s[k].0][Ints(s[k].1)] == Wrap(s[k].2)
  }

  /** Each entry of `oldDict` whose key no entry of `s` before `i` has is still in `dict`, unchanged. */
  ghost predicate KeepsOld(s: seq<(string, seq<PyValue>, Definition)>, i: int, oldDict: map<string, map<seq<int>, Definition>>,
                           dict: map<string, map<seq<int>, Definition>>)
    requires 0 <= i <= |s|
  {
    forall n, q :: n in oldDict && q in oldDict[n] && NoCarrier(s, n, q, i) ==>
      n in dict && q in dict[n] && dict[n][q] == oldDict[n][q]
  }

  /**
   * The table after adding the first `i` entries of `s` to `oldDict`: their
   * qubits are ints and their keys are present, each last entry with its key
   * is stored, and the old entries no one overwrote are kept.
   */
  ghost predicate AddedSoFar(s: seq<(string, seq<PyValue>, Definition)>, i: int, oldDict: map<string, map<seq<int>, Definition>>,
                             dict: map<string, map<seq<int>, Definition>>)
    requires 0 <= i <= |s|
  {
    (forall k :: 0 <= k < i ==> AllInts(s[k].1)) &&
    (forall k :: 0 <= k < i ==> s[k].0 in dict && Ints(s[k].1) in dict[s[k].0]) &&
    StoresLast(s, i, dict) && KeepsOld(s, i, oldDict, dict)
  }

  /** Adding entry `i` of `s` extends AddedSoFar from `i` to `i + 1`. */
  lemma AddAllStep(s: seq<(string, seq<PyValue>, Definition)>, i: int, oldDict: map<string, map<seq<int>, Definition>>,
                   before: map<string, map<seq<int>, Definition>>, after: map<string, map<seq<int>, Definition>>)
    requires 0 <= i < |s| && AllInts(s[i].1)
    requires var inner := if s[i].0 in before then before[s[i].0] else map[];
             after == before[s[i].0 := inner[Ints(s[i].1) := Wrap(s[i].2)]]
    requires AddedSoFar(s, i, oldDict, before)
    ensures AddedSoFar(s, i + 1, oldDict, after)
  {
    StoresLastStep(s, i, before, after);
    KeepsOldStep(s, i, oldDict, before, after);
  }

  /** The entry added last is stored, and an earlier last carrier of another key is untouched. */
  lemma StoresLastStep(s: seq<(string, seq<PyValue>, Definition)>, i: int,
                       before: map<string, map<seq<int>, Definition>>, after: map<string, map<seq<int>, Definition>>)
    requires 0 <= i < |s| && AllInts(s[i].1)
    requires var inner := if s[i].0 in before then before[s[i].0] else map[];
             after == before[s[i].0 := inner[Ints(s[i].1) := Wrap(s[i].2)]]
    requires StoresLast(s, i, before)
    ensures StoresLast(s, i + 1, after)
  {
    forall k | 0 <= k < i + 1 && LastCarrier(s, k, i + 1)
      ensures s[k].0 in after && Ints(s[k].1) in after[s[k].0] && after[s[k].0][Ints(s[k].1)] == Wrap(s[k].2)
    {
      if k < i {
        assert !Carries(s[i], s[k].0, Ints(s[k].1));
        assert LastCarrier(s, k, i);
      }
    }
  }

  /** An old entry that entry `i` does not carry is untouched by adding it. */
  lemma KeepsOldStep(s: seq<(string, seq<PyValue>, Definition)>, i: int, oldDict: map<string, map<seq<int>, Definition>>,
                     before: map<string, map<seq<int>, Definition>>, after: map<string, map<seq<int>, Definition>>)
    requires 0 <= i < |s| && AllInts(s[i].1)
    requires var inner := if s[i].0 in before then before[s[i].0] else map[];
             after == before[s[i].0 := inner[Ints(s[i].1) := Wrap(s[i].2)]]
    requires KeepsOld(s, i, oldDict, before)
    ensures KeepsOld(s, i + 1, oldDict, after)
  {
    forall n, q | n in oldDict && q in oldDict[n] && NoCarrier(s, n, q, i + 1)
      ensures n in after && q in after[n] && after[n][q] == oldDict[n][q]
    {
      assert NoCarrier(s, n, q, i);
      assert !Carries(s[i], n, q);
    }
  }

  /** Before any entry is added, AddedSoFar holds trivially. */
  lemma AddAllStart(s: seq<(string, seq<PyValue>, Definition)>, dict: map<string, map<seq<int>, Definition>>)
    ensures AddedSoFar(s, 0, dict, dict)
  {
  }

  /** AddedSoFar over all of `s`, written out. */
  lemma AddedAll(s: seq<(string, seq<PyValue>, Definition)>, oldDict: map<string, map<seq<int>, Definition>>,
                 dict: map<string, map<seq<int>, Definition>>)
    requires AddedSoFar(s, |s|, oldDict, dict)
    ensures forall k :: 0 <= k < |s| ==> AllInts(s[k].1)
    ensures forall k :: 0 <= k < |s| ==> s[k].0 in dict && Ints(s[k].1) in dict[s[k].0]
    ensures forall k :: 0 <= k < |s| && LastCarrier(s, k, |s|) ==>
              s[k].0 in dict && Ints(s[k].1) in dict[s[k].0] && dict[s[k].0][Ints(s[k].1)] == Wrap(s[k].2)
    ensures forall n, q :: n in oldDict && q in oldDict[n] && NoCarrier(s, n, q, |s|) ==>
              n in dict && q in dict[n] && dict[n][q] == oldDict[n][q]
  {
  }

  /** `CmdDef`: the table `_cmd_dict` with the insertion order of its two levels of keys. */
  class CmdDef {
    /** `_cmd_dict`: command name to qubit tuple to schedule. */
    var cmdDict: map<string, map<seq<int>, Definition>>
    /** The order in which the command names were first added. */
    var names: seq<string>
    /** Under each name, the order in which its qubit tuples were added. */
    var qubitOrder: map<string, seq<seq<int>>>

    /** The orders list exactly the keys, once each, and every stored schedule is parameterized. */
    ghost predicate Valid()
      reads this
    {
      TableValid(cmdDict, names, qubitOrder)
    }

    /** `CmdDef()`: an empty table. */
    constructor()
      ensures Valid()
      ensures cmdDict == map[] && names == [] && qubitOrder == map[]
    {
      cmdDict, names, qubitOrder := map[], [], map[];
    }

    /** `add(cmd_name, qubits, schedule)`: the entry is created or overwritten, everything else stays. */
    method Add(cmdName: string, qubits: QubitsArg, schedule: Definition) returns (o: Outcome<Error>)
      requires Valid()
      modifies this
      ensures Valid()
      ensures ToQubitTuple(qubits).Err? ==> o == Fail(QubitsNotIntegers) && unchanged(this)
      ensures ToQubitTuple(qubits).Ok? ==>
                var q := ToQubitTuple(qubits).value;
                var inner := if cmdName in old(cmdDict) then old(cmdDict)[cmdName] else map[];
                var order := if cmdName in old(qubitOrder) then old(qubitOrder)[cmdName] else [];
                o == Pass &&
                cmdDict == old(cmdDict)[cmdName := inner[q := Wrap(schedule)]] &&
                names == AddKey(old(names), cmdName) &&
                qubitOrder == old(qubitOrder)[cmdName := AddKey(order, q)]
      ensures forall n, q :: n in old(cmdDict) && q in old(cmdDict)[n] ==> n in cmdDict && q in cmdDict[n]
      ensures o == Pass ==> cmdName in cmdDict && ToQubitTuple(qubits).value in cmdDict[cmdName]
    {
      hide TableValid;
      var t := ToQubitTuple(qubits);
      if t.Err? {
        return Fail(t.error);
      }
      var q := t.value;
      var inner := if cmdName in cmdDict then cmdDict[cmdName] else map[];
      var order := if cmdName in qubitOrder then qubitOrder[cmdName] else [];
      AddKeepsValid(cmdDict, names, qubitOrder, cmdName, q, Wrap(schedule));
      cmdDict := cmdDict[cmdName := inner[q := Wrap(schedule)]];
      names := AddKey(names, cmdName);
      qubitOrder := qubitOrder[cmdName := AddKey(order, q)];
      o := Pass;
    }

    /** The body of `CmdDef(schedules)`: each key `(name, *qubits)` is split and added, in dict order. */
    method AddAll(schedules: seq<(string, seq<PyValue>, Definition)>) returns (o: Outcome<Error>)
      requires Valid()
      modifies this
      ensures Valid()
      ensures o == Pass <==> forall k :: 0 <= k < |schedules| ==> AllInts(schedules[k].1)
      ensures o == Pass ==> forall k :: 0 <= k < |schedules| ==>
                schedules[k].0 in cmdDict && Ints(schedules[k].1) in cmdDict[schedules[k].0]
      ensures o == Pass ==> forall k :: 0 <= k < |schedules| && LastCarrier(schedules, k, |schedules|) ==>
                cmdDict[schedules[k].0][Ints(schedules[k].1)] == Wrap(schedules[k].2)
      ensures o == Pass ==> forall n, q :: n in old(cmdDict) && q in old(cmdDict)[n] && NoCarrier(schedules, n, q, |schedules|) ==>
                n in cmdDict && q in cmdDict[n] && cmdDict[n][q] == old(cmdDict)[n][q]
      ensures o.Fail? ==> o.error == QubitsNotIntegers
    {
      hide TableValid, AddedSoFar, LastCarrier, NoCarrier, AddKey, Wrap, Carries;
      var i := 0;
      AddAllStart(schedules, cmdDict);
      while i < |schedules|
        invariant 0 <= i <= |schedules|
        invariant Valid()
        invariant AddedSoFar(schedules, i, old(cmdDict), cmdDict)
      {
        var entry := schedules[i];
        ghost var before := cmdDict;
        o := Add(entry.0, Many(entry.1), entry.2);
        if o.Fail? {
          return;
        }
        assert ToQubitTuple(Many(entry.1)).Ok?;
        assert AllInts(schedules[i].1);
        AddAllStep(schedules, i, old(cmdDict), before, cmdDict);
        i := i + 1;
      }
      AddedAll(schedules, old(cmdDict), cmdDict);
      o := Pass;
    }

    /** `has(cmd_name, qubits)`. */
    function Has(cmdName: string, qubits: QubitsArg): (r: Result<bool, Error>)
      reads this
      ensures ToQubitTuple(qubits).Err? <==> r == Err(QubitsNotIntegers)
      ensures ToQubitTuple(qubits).Ok? ==>
                (r == Ok(true) <==> cmdName in cmdDict && ToQubitTuple(qubits).value in cmdDict[cmdName])
      ensures ToQubitTuple(qubits).Ok? ==> r.Ok?
    {
      var q :- ToQubitTuple(qubits);
      Ok(cmdName in cmdDict && q in cmdDict[cmdName])
    }

    /**
     * `get(cmd_name, qubits, **params)`: a stored `ParameterizedSchedule` is bound by
     * `bind` (its `bind_parameters` with the given params), a plain one is flattened
     * by `flatten`; a missing entry raises.
     */
    function Get(cmdName: string, qubits: QubitsArg, bind: ParameterizedSchedule -> Schedule,
                 flatten: Schedule -> Schedule): (r: Result<Schedule, Error>)
      reads this
      ensures Has(cmdName, qubits).Err? ==> r == Err(QubitsNotIntegers)
      ensures Has(cmdName, qubits) == Ok(false) ==>
                r == Err(CommandNotPresent(cmdName, ToQubitTuple(qubits).value))
      ensures Valid() && Has(cmdName, qubits) == Ok(true) ==>
                r == Ok(bind(cmdDict[cmdName][ToQubitTuple(qubits).value].p))
    {
      var q :- ToQubitTuple(qubits);
      if cmdName in cmdDict && q in cmdDict[cmdName] then
        match cmdDict[cmdName][q]
        case Parameterized(p) => Ok(bind(p))
        case Plain(s) => Ok(flatten(s))
      else Err(CommandNotPresent(cmdName, q))
    }

    /** `get_parameters(cmd_name, qubits)`: the stored schedule's parameter names. */
    function GetParameters(cmdName: string, qubits: QubitsArg): (r: Result<seq<string>, Error>)
      reads this
      ensures Has(cmdName, qubits).Err? ==> r == Err(QubitsNotIntegers)
      ensures Has(cmdName, qubits) == Ok(false) ==>
                r == Err(CommandNotPresent(cmdName, ToQubitTuple(qubits).value))
      ensures Valid() && Has(cmdName, qubits) == Ok(true) ==>
                r == Ok(cmdDict[cmdName][ToQubitTuple(qubits).value].p.parameters)
    {
      var q :- ToQubitTuple(qubits);
      if cmdName in cmdDict && q in cmdDict[cmdName] then
        match cmdDict[cmdName][q]
        case Parameterized(p) => Ok(p.parameters)
        case Plain(_) => Ok([])
      else Err(CommandNotPresent(cmdName, q))
    }

    /**
     * `pop(cmd_name, qubits, **params)`: removes exactly that entry and returns it bound;
     * the name itself stays. For a missing entry the error message's `'{0}'.format(name=...)`
     * raises IndexError before the PulseError is built.
     */
    method Pop(cmdName: string, qubits: QubitsArg, bind: ParameterizedSchedule -> Schedule) returns (r: Result<Schedule, Error>)
      requires Valid()
      modifies this
      ensures Valid()
      ensures Has(cmdName, qubits).Err? ==> r == Err(QubitsNotIntegers) && unchanged(this)
      ensures old(Has(cmdName, qubits)) == Ok(false) ==> r == Err(FormatIndexError) && unchanged(this)
      ensures old(Has(cmdName, qubits)) == Ok(true) ==>
                var q := ToQubitTuple(qubits).value;
                r == Ok(bind(old(cmdDict)[cmdName][q].p)) &&
                cmdDict == old(cmdDict)[cmdName := old(cmdDict)[cmdName] - {q}] &&
                names == old(names) &&
                qubitOrder == old(qubitOrder)[cmdName := Remove(old(qubitOrder)[cmdName], q)]
    {
      hide Has, ToQubitTuple, Remove;
      var t := ToQubitTuple(qubits);
      if t.Err? {
        return Err(t.error);
      }
      var q := t.value;
      if cmdName in cmdDict && q in cmdDict[cmdName] {
        var schedule := cmdDict[cmdName][q];
        assert cmdName in qubitOrder && schedule.Parameterized?;
        hide TableValid;
        RemoveKeepsValid(cmdDict, names, qubitOrder, cmdName, q);
        cmdDict := cmdDict[cmdName := cmdDict[cmdName] - {q}];
        qubitOrder := qubitOrder[cmdName := Remove(qubitOrder[cmdName], q)];
        r := Ok(bind(schedule.p));
      } else {
        r := Err(FormatIndexError);
      }
    }

    /** `cmds()`: every command name, in insertion order. */
    function Cmds(): (r: seq<string>)
      reads this
      requires Valid()
      ensures Distinct(r)
      ensures forall n :: n in r <==> n in cmdDict
    {
      names
    }

    /** `cmd_qubits(cmd_name)` as written: `list(self._cmd_dict.keys())`, the command names. */
    function CmdQubitsAsWritten(cmdName: string): (r: Result<seq<string>, Error>)
      reads this
      ensures cmdName !in cmdDict <==> r == Err(CommandDoesNotExist(cmdName))
      ensures Valid() && cmdName in cmdDict ==> r == Ok(Cmds())
    {
      if cmdName in cmdDict then Ok(names) else Err(CommandDoesNotExist(cmdName))
    }

    /** `cmd_qubits(cmd_name)` as documented: the qubit tuples the command is defined on, in insertion order. */
    function CmdQubits(cmdName: string): (r: Result<seq<seq<int>>, Error>)
      reads this
      requires Valid()
      ensures cmdName !in cmdDict <==> r == Err(CommandDoesNotExist(cmdName))
      ensures r.Ok? ==> Distinct(r.value) && forall q :: q in r.value <==> q in cmdDict[cmdName]
    {
      if cmdName in cmdDict then Ok(qubitOrder[cmdName]) else Err(CommandDoesNotExist(cmdName))
    }
  }

  /** After `add(name, qubits, s)`, `has(name, qubits)` holds and `get` binds the stored wrapper of `s`. */
  method AddThenHas(d: CmdDef, cmdName: string, qubits: QubitsArg, schedule: Definition, bind: ParameterizedSchedule -> Schedule,
                    flatten: Schedule -> Schedule)
    requires d.Valid() && ToQubitTuple(qubits).Ok?
    modifies d
    ensures d.Has(cmdName, qubits) == Ok(true)
    ensures d.Get(cmdName, qubits, bind, flatten) == Ok(bind(Wrap(schedule).p))
  {
    var o := d.Add(cmdName, qubits, schedule);
  }

  /** After `pop(name, qubits)` succeeds, `has(name, qubits)` is false and every other entry is as before. */
  method PopThenHasNot(d: CmdDef, cmdName: string, qubits: QubitsArg, bind: ParameterizedSchedule -> Schedule)
    requires d.Valid() && d.Has(cmdName, qubits) == Ok(true)
    modifies d
    ensures d.Valid() && d.Has(cmdName, qubits) == Ok(false)
    ensures forall n, q :: n in old(d.cmdDict) && q in old(d.cmdDict)[n] && (n, q) != (cmdName, ToQubitTuple(qubits).value) ==>
              n in d.cmdDict && q in d.cmdDict[n] && d.cmdDict[n][q] == old(d.cmdDict)[n][q]
    ensures cmdName in d.Cmds()
  {
    hide TableValid;
    var r := d.Pop(cmdName, qubits, bind);
  }

  /**
   * `CmdDef({("x", 0): d1, ("y", 1): e, ("x", 0): d2})` as an ordered entry list:
   * the later `x` entry overwrites the earlier one, and the `y` entry is kept.
   */
  method AddAllLastWins(d1: Definition, d2: Definition, e: Definition) returns (t: CmdDef, o: Outcome<Error>)
    ensures o == Pass
    ensures "x" in t.cmdDict && [0] in t.cmdDict["x"] && "y" in t.cmdDict && [1] in t.cmdDict["y"]
    ensures t.cmdDict["x"][[0]] == Wrap(d2) && t.cmdDict["y"][[1]] == Wrap(e)
  {
    t := new CmdDef();
    var s := [("x", [PyInt(0)], d1), ("y", [PyInt(1)], e), ("x", [PyInt(0)], d2)];
    assert Ints(s[0].1) == [0] && Ints(s[1].1) == [1] && Ints(s[2].1) == [0];
    assert Carries(s[2], "x", [0]);
    o := t.AddAll(s);
    assert LastCarrier(s, 2, 3) && LastCarrier(s, 1, 3);
  }

  /**
   * A table holding only `x` on qubit 0: as written, `cmd_qubits("x")` lists the
   * command names, `["x"]`; the qubit tuples it is documented to list are `[(0,)]`.
   */
  method CmdQubitsListsNames() returns (asWritten: Result<seq<string>, Error>, intended: Result<seq<seq<int>>, Error>)
    ensures asWritten == Ok(["x"]) && intended == Ok([[0]])
  {
    var d := new CmdDef();
    var o := d.Add("x", Scalar(PyInt(0)), Plain(Empty));
    assert ToQubitTuple(Scalar(PyInt(0))) == Ok([0]);
    assert d.names == AddKey([], "x") == ["x"];
    assert d.qubitOrder["x"] == AddKey([], [0]) == [[0]];
    asWritten := d.CmdQubitsAsWritten("x");
    intended := d.CmdQubits("x");
  }
}
