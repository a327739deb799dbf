/**
 * The circuit half of the assembler: every circuit becomes one experiment whose
 * header enumerates the qubit and clbit labels register by register, whose
 * instructions refer to bits by their position in those labels, and whose
 * conditional instructions carry a bit mask of the control register. The run
 * configuration records the largest qubit and memory-slot counts.
 */
module Assembler {
  import opened Wrappers
  import opened Errors
  import opened Seqs
  import Strings

  // ---------------------------------------------------------------------------
  // Circuits as the assembler reads them
  // ---------------------------------------------------------------------------

  /** A quantum or classical register: its name and its size. */
  datatype Register = Register(name: string, size: nat)

  /** A bit as an instruction's `qargs` and `cargs` hold it: `(register, index)`. */
  datatype Bit = Bit(register: Register, index: int)

  /** `opt.control`: the control register and the value it is compared with. */
  datatype Control = Control(register: Register, value: int)

  /**
   * One entry of `circuit.data`. `params` holds each parameter's `str()`; the
   * numeric conversion of parameters is not part of this model.
   */
  datatype Op = Op(name: string, qargs: seq<Bit>, cargs: seq<Bit>, params: seq<string>, control: Option<Control>)

  /** A circuit: its name, its quantum and classical registers in order, and its instructions. */
  datatype Circuit = Circuit(name: string, qregs: seq<Register>, cregs: seq<Register>, data: seq<Op>)

  /** The `circuits` argument: one circuit, or a list of them. */
  datatype CircuitsArg = OneCircuit(c: Circuit) | Circuits(cs: seq<Circuit>)

  // ---------------------------------------------------------------------------
  // The assembled objects
  // ---------------------------------------------------------------------------

  /** A header label `[reg.name, j]`. */
  datatype Label = Label(name: string, index: int)

  /** `QobjConditional(mask, type, val)`. */
  datatype Conditional = Conditional(mask: string, kind: string, val: string)

  /**
   * A `QasmQobjInstruction`: its name and the attributes set on it; an attribute
   * that is never set is `None`. `snapshotLabel` and `snapshotType` are the attributes `label` and `type`.
   */
  datatype QobjInstruction = QobjInstruction(name: string, qubits: Option<seq<nat>>, memory: Option<seq<nat>>,
                                             params: Option<seq<string>>, snapshotLabel: Option<string>,
                                             snapshotType: Option<string>, conditional: Option<Conditional>)

  /** A `QobjExperimentHeader`. */
  datatype Header = Header(qubitLabels: seq<Label>, nQubits: nat, qregSizes: seq<(string, nat)>,
                           clbitLabels: seq<Label>, memorySlots: nat, cregSizes: seq<(string, nat)>, name: string)

  /** A `QasmQobjExperiment`: its instructions, its header and its config's two counts. */
  datatype Experiment = Experiment(instructions: seq<QobjInstruction>, header: Header, nQubits: nat, memorySlots: nat)

  /** The two counts the assembler writes into the run configuration. */
  datatype Config = Config(nQubits: nat, memorySlots: nat)

  /** A `QasmQobj`: its configuration and its experiments. */
  datatype Qobj = Qobj(config: Config, experiments: seq<Experiment>)

  // ---------------------------------------------------------------------------
  // Labels and register sizes
  // ---------------------------------------------------------------------------

  /** The labels of one register: `[name, 0]`, ..., `[name, size - 1]`. */
  function RegisterLabels(r: Register): (ls: seq<Label>)
    ensures |ls| == r.size && forall j :: 0 <= j < r.size ==> ls[j] == Label(r.name, j)
  {
    seq(r.size, j requires 0 <= j < r.size => Label(r.name, j))
  }

  /** The labels of a list of registers, register by register. */
  function Labels(regs: seq<Register>): seq<Label> {
    if regs == [] then [] else Labels(regs[..|regs| - 1]) + RegisterLabels(regs[|regs| - 1])
  }

  /** The sum of the register sizes. */
  function SizeSum(regs: seq<Register>): nat {
    if regs == [] then 0 else SizeSum(regs[..|regs| - 1]) + regs[|regs| - 1].size
  }

  /** `[[reg.name, reg.size] for reg in regs]`. */
  function Sizes(regs: seq<Register>): (r: seq<(string, nat)>)
    ensures |r| == |regs| && forall k :: 0 <= k < |regs| ==> r[k] == (regs[k].name, regs[k].size)
  {
    if regs == [] then [] else Sizes(regs[..|regs| - 1]) + [(regs[|regs| - 1].name, regs[|regs| - 1].size)]
  }

  /** No two registers share a name. */
  predicate DistinctNames(regs: seq<Register>) {
    forall a, b :: 0 <= a < b < |regs| ==> regs[a].name != regs[b].name
  }

  /** One register more: its labels, its size and its size entry are appended. */
  lemma LabelsSnoc(regs: seq<Register>, i: nat)
    requires i < |regs|
    ensures Labels(regs[..i + 1]) == Labels(regs[..i]) + RegisterLabels(regs[i])
    ensures SizeSum(regs[..i + 1]) == SizeSum(regs[..i]) + regs[i].size
    ensures Sizes(regs[..i + 1]) == Sizes(regs[..i]) + [(regs[i].name, regs[i].size)]
  {
    PrefixSnoc(regs, i);
  }

  /** There are as many labels as the register sizes add up to. */
  lemma {:induction false} LabelsLength(regs: seq<Register>)
    ensures |Labels(regs)| == SizeSum(regs)
    decreases |regs|
  {
    if regs != [] {
      LabelsLength(regs[..|regs| - 1]);
    }
  }

  /**
   * Register `i`'s bit `j` has label `[regs[i].name, j]`, at the position after
   * all the bits of the registers before it.
   */
  lemma {:induction false} LabelAt(regs: seq<Register>, i: nat, j: nat)
    requires i < |regs| && j < regs[i].size
    ensures SizeSum(regs[..i]) + j < |Labels(regs)|
    ensures Labels(regs)[SizeSum(regs[..i]) + j] == Label(regs[i].name, j)
    decreases |regs|
  {
    var front, last := regs[..|regs| - 1], regs[|regs| - 1];
    LabelsLength(front);
    if i == |regs| - 1 {
      assert regs[..i] == front;
    } else {
      LabelAt(front, i, j);
      assert front[..i] == regs[..i] && front[i] == regs[i];
      LabelsLength(regs);
    }
  }

  /** Every label names one of the registers and an index inside it. */
  lemma {:induction false} LabelsFromRegisters(regs: seq<Register>)
    ensures forall l :: l in Labels(regs) ==> exists i :: 0 <= i < |regs| && regs[i].name == l.name && 0 <= l.index < regs[i].size
    decreases |regs|
  {
    if regs != [] {
      var front, last := regs[..|regs| - 1], regs[|regs| - 1];
      LabelsFromRegisters(front);
      forall l | l in Labels(regs)
        ensures exists i :: 0 <= i < |regs| && regs[i].name == l.name && 0 <= l.index < regs[i].size
      {
        if l in Labels(front) {
          var i :| 0 <= i < |front| && front[i].name == l.name && 0 <= l.index < front[i].size;
          assert regs[i] == front[i];
        } else {
          assert l in RegisterLabels(last);
          assert regs[|regs| - 1] == last;
        }
      }
    }
  }

  /** Registers with distinct names give labels without repetition. */
  lemma {:induction false} LabelsDistinct(regs: seq<Register>)
    requires DistinctNames(regs)
    ensures Distinct(Labels(regs))
    decreases |regs|
  {
    if regs != [] {
      var front, last := regs[..|regs| - 1], regs[|regs| - 1];
      assert DistinctNames(front) by {
        forall a, b | 0 <= a < b < |front| ensures front[a].name != front[b].name {
          assert front[a] == regs[a] && front[b] == regs[b];
        }
      }
      LabelsDistinct(front);
      LabelsFromRegisters(front);
      var lf, ll := Labels(front), RegisterLabels(last);
      forall a, b | 0 <= a < b < |lf + ll| ensures (lf + ll)[a] != (lf + ll)[b] {
        if b >= |lf| && a < |lf| {
          assert lf[a] in lf;
          var i :| 0 <= i < |front| && front[i].name == lf[a].name && 0 <= lf[a].index < front[i].size;
          assert regs[i] == front[i];
        }
      }
    }
  }

  /**
   * The register loop of the header: labels appended bit by bit, one size entry
   * per register, and the running total of the sizes.
   */
  method EnumerateRegisters(regs: seq<Register>) returns (labels: seq<Label>, sizes: seq<(string, nat)>, total: nat)
    ensures labels == Labels(regs) && sizes == Sizes(regs) && total == SizeSum(regs)
    ensures |labels| == total
  {
    labels, sizes, total := [], [], 0;
    for i := 0 to |regs|
      invariant labels == Labels(regs[..i]) && sizes == Sizes(regs[..i]) && total == SizeSum(regs[..i])
    {
      var r := regs[i];
      sizes := sizes + [(r.name, r.size)];
      for j := 0 to r.size
        invariant labels == Labels(regs[..i]) + RegisterLabels(r)[..j]
      {
        PrefixSnoc(RegisterLabels(r), j);
        AppendAssoc(Labels(regs[..i]), RegisterLabels(r)[..j], [Label(r.name, j)]);
        labels := labels + [Label(r.name, j)];
      }
      PrefixAll(RegisterLabels(r));
      total := total + r.size;
      LabelsSnoc(regs, i);
    }
    PrefixAll(regs);
    LabelsLength(regs);
  }

  // ---------------------------------------------------------------------------
  // Positions, masks and one instruction
  // ---------------------------------------------------------------------------

  /** `xs.index(x)`: the first position of `x`, `None` where Python raises ValueError. */
  function IndexOf<T(==)>(xs: seq<T>, x: T): (r: Option<nat>)
    ensures r.None? <==> x !in xs
    ensures r.Some? ==> r.value < |xs| && xs[r.value] == x && forall k :: 0 <= k < r.value ==> xs[k] != x
    decreases |xs|
  {
    if xs == [] then None
    else if xs[0] == x then Some(0)
    else match IndexOf(xs[1..], x)
      case None => None
      case Some(i) => Some(i + 1)
  }

  /** In a sequence without repetition, the position of the element at `k` is `k`. */
  lemma IndexOfDistinct<T>(xs: seq<T>, k: nat)
    requires Distinct(xs) && k < |xs|
    ensures IndexOf(xs, xs[k]) == Some(k)
  {
    var r := IndexOf(xs, xs[k]);
  }

  /** `[qubit[0].name, qubit[1]]`: the label an instruction's bit is looked up by. */
  function LabelOf(b: Bit): Label {
    Label(b.register.name, b.index)
  }

  /** `[labels.index([b[0].name, b[1]]) for b in bits]`: ValueError as soon as a bit has no label. */
  function Positions(labels: seq<Label>, bits: seq<Bit>): (r: Result<seq<nat>, Error>)
    ensures r.Ok? <==> forall k :: 0 <= k < |bits| ==> LabelOf(bits[k]) in labels
    ensures r.Err? ==> r.error == NotInList
    ensures r.Ok? ==> |r.value| == |bits| &&
                      forall k :: 0 <= k < |bits| ==> r.value[k] < |labels| && labels[r.value[k]] == LabelOf(bits[k])
    ensures r.Ok? ==> forall k :: 0 <= k < |bits| ==> IndexOf(labels, LabelOf(bits[k])) == Some(r.value[k])
    decreases |bits|
  {
    if bits == [] then Ok([])
    else match IndexOf(labels, LabelOf(bits[0]))
      case None => Err(NotInList)
      case Some(i) =>
        match Positions(labels, bits[1..])
        case Err(e) =>
          assert exists k :: 1 <= k < |bits| && LabelOf(bits[k]) !in labels by {
            var k :| 0 <= k < |bits[1..]| && LabelOf(bits[1..][k]) !in labels;
            assert bits[1..][k] == bits[k + 1];
          }
          Err(e)
        case Ok(rest) =>
          assert forall k :: 1 <= k < |bits| ==> bits[k] == bits[1..][k - 1];
          Ok([i] + rest)
  }

  /**
   * With registers of distinct names, bit `j` of register `i` is placed after all
   * the bits of the registers before it.
   */
  lemma PositionOfRegisterBit(regs: seq<Register>, bits: seq<Bit>, k: nat, i: nat)
    requires DistinctNames(regs) && k < |bits| && i < |regs|
    requires bits[k].register.name == regs[i].name && 0 <= bits[k].index < regs[i].size
    ensures Positions(Labels(regs), bits).Ok? ==> Positions(Labels(regs), bits).value[k] == SizeSum(regs[..i]) + bits[k].index
  {
    LabelAt(regs, i, bits[k].index);
    LabelsDistinct(regs);
    IndexOfDistinct(Labels(regs), SizeSum(regs[..i]) + bits[k].index);
  }

  /** The attribute set only `if bits:` — the positions of a non-empty list of bits. */
  function OptionalPositions(labels: seq<Label>, bits: seq<Bit>): (r: Result<Option<seq<nat>>, Error>)
    ensures bits == [] ==> r == Ok(None)
    ensures bits != [] ==> r == match Positions(labels, bits) case Ok(p) => Ok(Some(p)) case Err(e) => Err(e)
  {
    if bits == [] then Ok(None) else var p :- Positions(labels, bits); Ok(Some(p))
  }

  /**
   * The bits of the conditional mask: bit `i` is set when clbit label `i` is in
   * the control register and `labels.index` of that label is `i`, that is, when
   * some label of the register is looked up at position `i`.
   */
  function MaskBits(labels: seq<Label>, register: string): (bs: seq<bool>)
    ensures |bs| == |labels|
  {
    seq(|labels|, i requires 0 <= i < |labels| => labels[i].name == register && IndexOf(labels, labels[i]) == Some(i))
  }

  /** The number whose binary digits, least significant first, are `bs`. */
  function FromBits(bs: seq<bool>): nat
    decreases |bs|
  {
    if bs == [] then 0 else (if bs[0] then 1 else 0) + 2 * FromBits(bs[1..])
  }

  /** Bit `i` of `n`: `(n >> i) & 1 == 1`. */
  function TestBit(n: nat, i: nat): bool
    decreases i
  {
    if i == 0 then n % 2 == 1 else TestBit(n / 2, i - 1)
  }

  /** The digits of `FromBits(bs)` are `bs`, and every bit above them is clear. */
  lemma {:induction false} FromBitsDigits(bs: seq<bool>, i: nat)
    ensures TestBit(FromBits(bs), i) == (i < |bs| && bs[i])
    decreases |bs|
  {
    if bs == [] {
      ZeroHasNoBits(i);
    } else {
      var b := if bs[0] then 1 else 0;
      var m := FromBits(bs[1..]);
      assert FromBits(bs) == b + 2 * m;
      assert (b + 2 * m) % 2 == b && (b + 2 * m) / 2 == m;
      if i > 0 {
        FromBitsDigits(bs[1..], i - 1);
      }
    }
  }

  /** No bit of 0 is set. */
  lemma {:induction false} ZeroHasNoBits(i: nat)
    ensures !TestBit(0, i)
    decreases i
  {
    if i > 0 {
      ZeroHasNoBits(i - 1);
    }
  }

  /**
   * The mask loop: for each clbit label in the control register, the bit at that
   * label's position is or-ed into the mask. The mask is accumulated as its
   * sequence of binary digits, one per clbit label, and read as a number at the end.
   */
  method ComputeMask(labels: seq<Label>, register: string) returns (mask: nat)
    ensures mask == FromBits(MaskBits(labels, register))
  {
    var bits := seq(|labels|, _ => false);
    for n := 0 to |labels|
      invariant MaskSoFar(labels, register, bits, n)
    {
      MaskStep(labels, register, bits, n);
      if labels[n].name == register {
        var index := IndexOf(labels, labels[n]).value;
        bits := bits[index := true];
      }
    }
    assert bits == MaskBits(labels, register);
    mask := FromBits(bits);
  }

  /** The mask bits after the first `n` clbit labels: the positions looked up for those of the control register. */
  predicate MaskSoFar(labels: seq<Label>, register: string, bits: seq<bool>, n: nat) {
    |bits| == |labels| &&
    forall i :: 0 <= i < |labels| ==> (bits[i] <==> i < n && labels[i].name == register && IndexOf(labels, labels[i]) == Some(i))
  }

  /**
   * One label more: a label of the control register sets the bit of its first
   * occurrence, which is either its own position or a bit already set.
   */
  lemma MaskStep(labels: seq<Label>, register: string, bits: seq<bool>, n: nat)
    requires n < |labels| && MaskSoFar(labels, register, bits, n)
    ensures labels[n].name == register ==>
              IndexOf(labels, labels[n]).Some? && MaskSoFar(labels, register, bits[IndexOf(labels, labels[n]).value := true], n + 1)
    ensures labels[n].name != register ==> MaskSoFar(labels, register, bits, n + 1)
  {
    if labels[n].name == register {
      var index := IndexOf(labels, labels[n]).value;
      assert labels[index] == labels[n];
      assert IndexOf(labels, labels[index]) == Some(index);
    }
  }

  /** The mask has bit `i` set exactly when a label of the control register sits at position `i`, for labels without repetition. */
  lemma MaskOfDistinctLabels(labels: seq<Label>, register: string, i: nat)
    requires Distinct(labels)
    ensures TestBit(FromBits(MaskBits(labels, register)), i) <==> i < |labels| && labels[i].name == register
  {
    FromBitsDigits(MaskBits(labels, register), i);
    if i < |labels| {
      IndexOfDistinct(labels, i);
    }
  }

  /** Whatever the labels, a set mask bit is a label of the control register. */
  lemma MaskBitsInRegister(labels: seq<Label>, register: string, i: nat)
    ensures TestBit(FromBits(MaskBits(labels, register)), i) ==> i < |labels| && labels[i].name == register
  {
    FromBitsDigits(MaskBits(labels, register), i);
  }

  /**
   * One instruction: the positions of its qubits and clbits, its parameters,
   * the snapshot label and type (IndexError when a snapshot has fewer than two
   * parameters), and the conditional with the mask of the control register.
   */
  function InstructionFor(op: Op, qubitLabels: seq<Label>, clbitLabels: seq<Label>): (r: Result<QobjInstruction, Error>)
  {
    var qubits :- OptionalPositions(qubitLabels, op.qargs);
    var memory :- OptionalPositions(clbitLabels, op.cargs);
    var params := if op.params != [] then Some(op.params) else None;
    var snapshot :- if op.name != "snapshot" then Ok((None, None))
                    else if |op.params| < 2 then Err(IndexOutOfRange)
                    else Ok((Some(op.params[0]), Some(op.params[1])));
    var conditional := if op.control.None? then None
                       else Some(Conditional(Strings.Hex(FromBits(MaskBits(clbitLabels, op.control.value.register.name))),
                                             "equals", Strings.Hex(op.control.value.value)));
    Ok(QobjInstruction(op.name, qubits, memory, params, snapshot.0, snapshot.1, conditional))
  }

  /** Building one instruction: the attributes are set one after the other, as the loop body does. */
  method AssembleInstruction(op: Op, qubitLabels: seq<Label>, clbitLabels: seq<Label>) returns (r: Result<QobjInstruction, Error>)
    ensures r == InstructionFor(op, qubitLabels, clbitLabels)
  {
    var current := QobjInstruction(op.name, None, None, None, None, None, None);
    if op.qargs != [] {
      var qubitIndices := Positions(qubitLabels, op.qargs);
      if qubitIndices.Err? {
        return Err(qubitIndices.error);
      }
      current := current.(qubits := Some(qubitIndices.value));
    }
    if op.cargs != [] {
      var clbitIndices := Positions(clbitLabels, op.cargs);
      if clbitIndices.Err? {
        return Err(clbitIndices.error);
      }
      current := current.(memory := Some(clbitIndices.value));
    }
    if op.params != [] {
      current := current.(params := Some(op.params));
    }
    if op.name == "snapshot" {
      if |op.params| < 2 {
        return Err(IndexOutOfRange);
      }
      current := current.(snapshotLabel := Some(op.params[0]), snapshotType := Some(op.params[1]));
    }
    if op.control.Some? {
      var mask := ComputeMask(clbitLabels, op.control.value.register.name);
      current := current.(conditional := Some(Conditional(Strings.Hex(mask), "equals", Strings.Hex(op.control.value.value))));
    }
    r := Ok(current);
  }

  /**
   * What an assembled instruction says: bits are referred to by their label
   * positions, a snapshot takes its label and type from its first two
   * parameters, and a controlled instruction compares the masked register with
   * its value.
   */
  lemma InstructionMeaning(op: Op, qubitLabels: seq<Label>, clbitLabels: seq<Label>)
    requires InstructionFor(op, qubitLabels, clbitLabels).Ok?
    ensures var ins := InstructionFor(op, qubitLabels, clbitLabels).value;
            ins.name == op.name &&
            (ins.qubits.Some? <==> op.qargs != []) &&
            (ins.qubits.Some? ==>
               |ins.qubits.value| == |op.qargs| &&
               forall k :: 0 <= k < |op.qargs| ==>
                 ins.qubits.value[k] < |qubitLabels| && qubitLabels[ins.qubits.value[k]] == LabelOf(op.qargs[k])) &&
            (ins.memory.Some? <==> op.cargs != []) &&
            (ins.memory.Some? ==>
               |ins.memory.value| == |op.cargs| &&
               forall k :: 0 <= k < |op.cargs| ==>
                 ins.memory.value[k] < |clbitLabels| && clbitLabels[ins.memory.value[k]] == LabelOf(op.cargs[k])) &&
            (ins.params.Some? <==> op.params != []) &&
            (op.name == "snapshot" ==> ins.snapshotLabel == Some(op.params[0]) && ins.snapshotType == Some(op.params[1])) &&
            (op.name != "snapshot" ==> ins.snapshotLabel.None? && ins.snapshotType.None?) &&
            (ins.conditional.Some? <==> op.control.Some?) &&
            (op.control.Some? ==>
               ins.conditional.value.kind == "equals" &&
               ins.conditional.value.val == Strings.Hex(op.control.value.value) &&
               ins.conditional.value.mask == Strings.Hex(FromBits(MaskBits(clbitLabels, op.control.value.register.name))))
  {
  }

  /** An instruction fails exactly when a bit has no label, or a snapshot lacks its two parameters. */
  lemma InstructionErrors(op: Op, qubitLabels: seq<Label>, clbitLabels: seq<Label>)
    ensures var r := InstructionFor(op, qubitLabels, clbitLabels);
            var bitsFound := (forall k :: 0 <= k < |op.qargs| ==> LabelOf(op.qargs[k]) in qubitLabels) &&
                             (forall k :: 0 <= k < |op.cargs| ==> LabelOf(op.cargs[k]) in clbitLabels);
            (r.Err? <==> !bitsFound || (op.name == "snapshot" && |op.params| < 2)) &&
            (!bitsFound ==> r == Err(NotInList)) &&
            (bitsFound && op.name == "snapshot" && |op.params| < 2 ==> r == Err(IndexOutOfRange))
  {
  }

  // ---------------------------------------------------------------------------
  // Experiments
  // ---------------------------------------------------------------------------

  /** The instructions of a circuit, in order; the first instruction that fails decides the error. */
  function InstructionsFor(ops: seq<Op>, qubitLabels: seq<Label>, clbitLabels: seq<Label>): (r: Result<seq<QobjInstruction>, Error>)
    ensures r.Ok? ==> |r.value| == |ops| &&
                      forall k :: 0 <= k < |ops| ==> InstructionFor(ops[k], qubitLabels, clbitLabels) == Ok(r.value[k])
    decreases |ops|
  {
    if ops == [] then Ok([])
    else
      var first :- InstructionFor(ops[0], qubitLabels, clbitLabels);
      var rest :- InstructionsFor(ops[1..], qubitLabels, clbitLabels);
      assert forall k :: 1 <= k < |ops| ==> ops[k] == ops[1..][k - 1];
      Ok([first] + rest)
  }

  /** When every instruction assembles, the list is theirs in order. */
  lemma {:induction false} InstructionsAllOk(ops: seq<Op>, qubitLabels: seq<Label>, clbitLabels: seq<Label>, ys: seq<QobjInstruction>)
    requires |ys| == |ops| && forall k :: 0 <= k < |ops| ==> InstructionFor(ops[k], qubitLabels, clbitLabels) == Ok(ys[k])
    ensures InstructionsFor(ops, qubitLabels, clbitLabels) == Ok(ys)
    decreases |ops|
  {
    hide InstructionFor;
    if ops != [] {
      assert forall k :: 0 <= k < |ops| - 1 ==> ops[1..][k] == ops[k + 1] && ys[1..][k] == ys[k + 1];
      InstructionsAllOk(ops[1..], qubitLabels, clbitLabels, ys[1..]);
      assert ys == [ys[0]] + ys[1..];
    }
  }

  /** When instruction `k` is the first to fail, its error is the error of the whole list. */
  lemma {:induction false} InstructionsStopAt(ops: seq<Op>, qubitLabels: seq<Label>, clbitLabels: seq<Label>, k: nat)
    requires k < |ops| && InstructionFor(ops[k], qubitLabels, clbitLabels).Err?
    requires forall j :: 0 <= j < k ==> InstructionFor(ops[j], qubitLabels, clbitLabels).Ok?
    ensures InstructionsFor(ops, qubitLabels, clbitLabels) == Err(InstructionFor(ops[k], qubitLabels, clbitLabels).error)
    decreases k
  {
    hide InstructionFor;
    if k > 0 {
      assert forall j :: 0 <= j < k - 1 ==> ops[1..][j] == ops[j + 1];
      assert InstructionFor(ops[0], qubitLabels, clbitLabels).Ok?;
      InstructionsStopAt(ops[1..], qubitLabels, clbitLabels, k - 1);
    }
  }

  /** One circuit's experiment: the header from its registers, then its instructions. */
  function ExperimentFor(c: Circuit): (r: Result<Experiment, Error>)
  {
    var qubitLabels, clbitLabels := Labels(c.qregs), Labels(c.cregs);
    var header := Header(qubitLabels, SizeSum(c.qregs), Sizes(c.qregs), clbitLabels, SizeSum(c.cregs), Sizes(c.cregs), c.name);
    var instructions :- InstructionsFor(c.data, qubitLabels, clbitLabels);
    Ok(Experiment(instructions, header, SizeSum(c.qregs), SizeSum(c.cregs)))
  }

  /** The loop body over one circuit: its header, then each instruction in turn. */
  method AssembleExperiment(c: Circuit) returns (r: Result<Experiment, Error>)
    ensures r == ExperimentFor(c)
  {
    hide InstructionFor, InstructionsFor, Labels, Sizes, SizeSum;
    var qubitLabels, qregSizes, nQubits := EnumerateRegisters(c.qregs);
    var clbitLabels, cregSizes, memorySlots := EnumerateRegisters(c.cregs);
    var header := Header(qubitLabels, nQubits, qregSizes, clbitLabels, memorySlots, cregSizes, c.name);
    var instructions: seq<QobjInstruction> := [];
    for k := 0 to |c.data|
      invariant |instructions| == k
      invariant forall j :: 0 <= j < k ==> InstructionFor(c.data[j], qubitLabels, clbitLabels) == Ok(instructions[j])
    {
      var current := AssembleInstruction(c.data[k], qubitLabels, clbitLabels);
      if current.Err? {
        InstructionsStopAt(c.data, qubitLabels, clbitLabels, k);
        return Err(current.error);
      }
      instructions := instructions + [current.value];
    }
    InstructionsAllOk(c.data, qubitLabels, clbitLabels, instructions);
    r := Ok(Experiment(instructions, header, nQubits, memorySlots));
  }

  /**
   * The header counts match the labels, the config counts match the header, and
   * register `i`'s bit `j` is labelled at the offset of the registers before it.
   */
  lemma ExperimentHeader(c: Circuit)
    requires ExperimentFor(c).Ok?
    ensures var e := ExperimentFor(c).value;
            e.header.name == c.name &&
            e.nQubits == e.header.nQubits == |e.header.qubitLabels| == SizeSum(c.qregs) &&
            e.memorySlots == e.header.memorySlots == |e.header.clbitLabels| == SizeSum(c.cregs) &&
            |e.instructions| == |c.data| &&
            e.header.qubitLabels == Labels(c.qregs) && e.header.clbitLabels == Labels(c.cregs) &&
            e.header.qregSizes == Sizes(c.qregs) && e.header.cregSizes == Sizes(c.cregs)
  {
    LabelsLength(c.qregs);
    LabelsLength(c.cregs);
  }

  /** With classical registers of distinct names, a conditional's mask selects exactly the control register's clbits. */
  lemma ConditionalMask(c: Circuit, k: nat, i: nat)
    requires DistinctNames(c.cregs) && k < |c.data| && c.data[k].control.Some?
    ensures TestBit(FromBits(MaskBits(Labels(c.cregs), c.data[k].control.value.register.name)), i) <==>
            i < |Labels(c.cregs)| && Labels(c.cregs)[i].name == c.data[k].control.value.register.name
  {
    LabelsDistinct(c.cregs);
    MaskOfDistinctLabels(Labels(c.cregs), c.data[k].control.value.register.name, i);
  }

  // ---------------------------------------------------------------------------
  // The whole assembly
  // ---------------------------------------------------------------------------

  /** `if isinstance(circuits, QuantumCircuit): circuits = [circuits]`. */
  function AsList(circuits: CircuitsArg): (r: seq<Circuit>)
    ensures circuits.OneCircuit? ==> r == [circuits.c]
    ensures circuits.Circuits? ==> r == circuits.cs
  {
    match circuits
    case OneCircuit(c) => [c]
    case Circuits(cs) => cs
  }

  /** One experiment per circuit, in order; the first circuit that fails decides the error. */
  function ExperimentsFor(cs: seq<Circuit>): (r: Result<seq<Experiment>, Error>)
    ensures r.Ok? ==> |r.value| == |cs| && forall k :: 0 <= k < |cs| ==> ExperimentFor(cs[k]) == Ok(r.value[k])
    decreases |cs|
  {
    if cs == [] then Ok([])
    else
      var first :- ExperimentFor(cs[0]);
      var rest :- ExperimentsFor(cs[1..]);
      assert forall k :: 1 <= k < |cs| ==> cs[k] == cs[1..][k - 1];
      Ok([first] + rest)
  }

  /** When every circuit assembles, the experiments are theirs in order. */
  lemma {:induction false} ExperimentsAllOk(cs: seq<Circuit>, ys: seq<Experiment>)
    requires |ys| == |cs| && forall k :: 0 <= k < |cs| ==> ExperimentFor(cs[k]) == Ok(ys[k])
    ensures ExperimentsFor(cs) == Ok(ys)
    decreases |cs|
  {
    hide ExperimentFor;
    if cs != [] {
      assert forall k :: 0 <= k < |cs| - 1 ==> cs[1..][k] == cs[k + 1] && ys[1..][k] == ys[k + 1];
      ExperimentsAllOk(cs[1..], ys[1..]);
      assert ys == [ys[0]] + ys[1..];
    }
  }

  /** When circuit `k` is the first to fail, its error is the error of the assembly. */
  lemma {:induction false} ExperimentsStopAt(cs: seq<Circuit>, k: nat)
    requires k < |cs| && ExperimentFor(cs[k]).Err?
    requires forall j :: 0 <= j < k ==> ExperimentFor(cs[j]).Ok?
    ensures ExperimentsFor(cs) == Err(ExperimentFor(cs[k]).error)
    decreases k
  {
    hide ExperimentFor;
    if k > 0 {
      assert forall j :: 0 <= j < k - 1 ==> cs[1..][j] == cs[j + 1];
      assert ExperimentFor(cs[0]).Ok?;
      ExperimentsStopAt(cs[1..], k - 1);
    }
  }

  /** The largest of a list of counts, starting from 0. */
  function MaxOf(ns: seq<nat>): nat {
    if ns == [] then 0 else
      var m := MaxOf(ns[..|ns| - 1]);
      if ns[|ns| - 1] > m then ns[|ns| - 1] else m
  }

  /** The maximum bounds every count, is one of them, and is 0 for no counts. */
  lemma {:induction false} MaxOfIsMaximum(ns: seq<nat>)
    ensures forall k :: 0 <= k < |ns| ==> ns[k] <= MaxOf(ns)
    ensures ns == [] ==> MaxOf(ns) == 0
    ensures ns != [] ==> exists k :: 0 <= k < |ns| && ns[k] == MaxOf(ns)
    decreases |ns|
  {
    if ns != [] {
      var front := ns[..|ns| - 1];
      MaxOfIsMaximum(front);
      assert forall k :: 0 <= k < |front| ==> front[k] == ns[k];
      if ns[|ns| - 1] <= MaxOf(front) && front != [] {
        var k :| 0 <= k < |front| && front[k] == MaxOf(front);
        assert ns[k] == MaxOf(ns);
      }
    }
  }

  /** The qubit count of each experiment, in order. */
  function QubitCounts(exps: seq<Experiment>): (r: seq<nat>)
    ensures |r| == |exps| && forall k :: 0 <= k < |exps| ==> r[k] == exps[k].nQubits
  {
    seq(|exps|, k requires 0 <= k < |exps| => exps[k].nQubits)
  }

  /** The memory-slot count of each experiment, in order. */
  function MemorySlotCounts(exps: seq<Experiment>): (r: seq<nat>)
    ensures |r| == |exps| && forall k :: 0 <= k < |exps| ==> r[k] == exps[k].memorySlots
  {
    seq(|exps|, k requires 0 <= k < |exps| => exps[k].memorySlots)
  }

  /** `assemble_circuits`: the experiments, and the largest qubit and memory-slot counts among them. */
  function Assemble(circuits: CircuitsArg): (r: Result<Qobj, Error>)
  {
    var experiments :- ExperimentsFor(AsList(circuits));
    Ok(Qobj(Config(MaxOf(QubitCounts(experiments)), MaxOf(MemorySlotCounts(experiments))), experiments))
  }

  /** One count more: the running maximum is updated only by a larger count. */
  lemma MaxOfSnoc(ns: seq<nat>, n: nat)
    ensures MaxOf(ns + [n]) == if n > MaxOf(ns) then n else MaxOf(ns)
  {
    assert (ns + [n])[..|ns|] == ns;
  }

  /** One experiment more appends its two counts. */
  lemma CountsSnoc(exps: seq<Experiment>, e: Experiment)
    ensures QubitCounts(exps + [e]) == QubitCounts(exps) + [e.nQubits]
    ensures MemorySlotCounts(exps + [e]) == MemorySlotCounts(exps) + [e.memorySlots]
  {
  }

  /**
   * The state of the circuit loop after `i` circuits: their experiments in order
   * and the running maxima of the two counts.
   */
  predicate AssembledSoFar(cs: seq<Circuit>, i: nat, experiments: seq<Experiment>, maxNQubits: nat, maxMemorySlots: nat) {
    i <= |cs| && |experiments| == i &&
    (forall k :: 0 <= k < i ==> ExperimentFor(cs[k]) == Ok(experiments[k])) &&
    maxNQubits == MaxOf(QubitCounts(experiments)) && maxMemorySlots == MaxOf(MemorySlotCounts(experiments))
  }

  /** One circuit more: its experiment is appended, and a larger count replaces the running maximum. */
  lemma AssembledStep(cs: seq<Circuit>, i: nat, experiments: seq<Experiment>, maxNQubits: nat, maxMemorySlots: nat, e: Experiment)
    requires AssembledSoFar(cs, i, experiments, maxNQubits, maxMemorySlots) && i < |cs| && ExperimentFor(cs[i]) == Ok(e)
    ensures AssembledSoFar(cs, i + 1, experiments + [e], if e.nQubits > maxNQubits then e.nQubits else maxNQubits,
                           if e.memorySlots > maxMemorySlots then e.memorySlots else maxMemorySlots)
  {
    CountsSnoc(experiments, e);
    MaxOfSnoc(QubitCounts(experiments), e.nQubits);
    MaxOfSnoc(MemorySlotCounts(experiments), e.memorySlots);
    hide ExperimentFor, MaxOf, QubitCounts, MemorySlotCounts;
    assert forall k :: 0 <= k < i ==> (experiments + [e])[k] == experiments[k];
  }

  /** After the last circuit, the loop state is the assembly's result. */
  lemma AssembledAll(circuits: CircuitsArg, experiments: seq<Experiment>, maxNQubits: nat, maxMemorySlots: nat)
    requires AssembledSoFar(AsList(circuits), |AsList(circuits)|, experiments, maxNQubits, maxMemorySlots)
    ensures Assemble(circuits) == Ok(Qobj(Config(maxNQubits, maxMemorySlots), experiments))
  {
    ExperimentsAllOk(AsList(circuits), experiments);
  }

  /** A failing circuit after `i` good ones: its error is the assembly's. */
  lemma AssembledFails(circuits: CircuitsArg, i: nat, experiments: seq<Experiment>, maxNQubits: nat, maxMemorySlots: nat)
    requires AssembledSoFar(AsList(circuits), i, experiments, maxNQubits, maxMemorySlots)
    requires i < |AsList(circuits)| && ExperimentFor(AsList(circuits)[i]).Err?
    ensures Assemble(circuits) == Err(ExperimentFor(AsList(circuits)[i]).error)
  {
    ExperimentsStopAt(AsList(circuits), i);
  }

  /** The loop over the circuits, with the running maxima of the two counts. */
  method AssembleCircuits(circuits: CircuitsArg) returns (r: Result<Qobj, Error>)
    ensures r == Assemble(circuits)
  {
    var cs := AsList(circuits);
    var experiments: seq<Experiment> := [];
    var maxNQubits, maxMemorySlots := 0, 0;
    assert AssembledSoFar(cs, 0, experiments, maxNQubits, maxMemorySlots);
    hide *;
    for i := 0 to |cs|
      invariant AssembledSoFar(cs, i, experiments, maxNQubits, maxMemorySlots)
    {
      var experiment := AssembleExperiment(cs[i]);
      if experiment.Err? {
        AssembledFails(circuits, i, experiments, maxNQubits, maxMemorySlots);
        return Err(experiment.error);
      }
      var e := experiment.value;
      AssembledStep(cs, i, experiments, maxNQubits, maxMemorySlots, e);
      experiments := experiments + [e];
      if e.nQubits > maxNQubits {
        maxNQubits := e.nQubits;
      }
      if e.memorySlots > maxMemorySlots {
        maxMemorySlots := e.memorySlots;
      }
    }
    AssembledAll(circuits, experiments, maxNQubits, maxMemorySlots);
    r := Ok(Qobj(Config(maxNQubits, maxMemorySlots), experiments));
  }

  /**
   * The assembly succeeds exactly when every circuit does; then there is one
   * experiment per circuit, in order.
   */
  lemma AssembleMeaning(circuits: CircuitsArg)
    ensures var cs := AsList(circuits);
            var r := Assemble(circuits);
            (r.Ok? <==> forall k :: 0 <= k < |cs| ==> ExperimentFor(cs[k]).Ok?) &&
            (r.Ok? ==> |r.value.experiments| == |cs| &&
                       forall k :: 0 <= k < |cs| ==> ExperimentFor(cs[k]) == Ok(r.value.experiments[k]))
  {
    hide ExperimentFor;
    var cs := AsList(circuits);
    if forall k :: 0 <= k < |cs| ==> ExperimentFor(cs[k]).Ok? {
      var ys := seq(|cs|, k requires 0 <= k < |cs| => ExperimentFor(cs[k]).value);
      ExperimentsAllOk(cs, ys);
    } else {
      var k :| 0 <= k < |cs| && ExperimentFor(cs[k]).Err?;
      FirstFailure(cs, k);
    }
  }

  /** The config holds the maxima of the experiments' counts. */
  lemma AssembleConfig(circuits: CircuitsArg)
    requires Assemble(circuits).Ok?
    ensures var q := Assemble(circuits).value;
            q.config == Config(MaxOf(QubitCounts(q.experiments)), MaxOf(MemorySlotCounts(q.experiments)))
  {
  }

  /**
   * The config counts are the largest counts of the experiments: no experiment
   * exceeds them, some experiment reaches them, and with no experiments they are 0.
   */
  lemma ConfigMeaning(circuits: CircuitsArg)
    requires Assemble(circuits).Ok?
    ensures var q := Assemble(circuits).value;
            (forall k :: 0 <= k < |q.experiments| ==>
               q.experiments[k].nQubits <= q.config.nQubits && q.experiments[k].memorySlots <= q.config.memorySlots) &&
            (q.experiments == [] ==> q.config == Config(0, 0)) &&
            (q.experiments != [] ==>
               (exists k :: 0 <= k < |q.experiments| && q.experiments[k].nQubits == q.config.nQubits) &&
               (exists k :: 0 <= k < |q.experiments| && q.experiments[k].memorySlots == q.config.memorySlots))
  {
    AssembleConfig(circuits);
    MaximaOfCounts(Assemble(circuits).value.experiments);
  }

  /** The two maxima bound every experiment's counts, are reached by one, and are 0 for no experiments. */
  lemma MaximaOfCounts(exps: seq<Experiment>)
    ensures forall k :: 0 <= k < |exps| ==>
              exps[k].nQubits <= MaxOf(QubitCounts(exps)) && exps[k].memorySlots <= MaxOf(MemorySlotCounts(exps))
    ensures exps == [] ==> MaxOf(QubitCounts(exps)) == 0 && MaxOf(MemorySlotCounts(exps)) == 0
    ensures exps != [] ==> (exists k :: 0 <= k < |exps| && exps[k].nQubits == MaxOf(QubitCounts(exps))) &&
                           (exists k :: 0 <= k < |exps| && exps[k].memorySlots == MaxOf(MemorySlotCounts(exps)))
  {
    var qs, ms := QubitCounts(exps), MemorySlotCounts(exps);
    MaxOfIsMaximum(qs);
    MaxOfIsMaximum(ms);
    hide MaxOf;
    if exps != [] {
      var a :| 0 <= a < |qs| && qs[a] == MaxOf(qs);
      assert exps[a].nQubits == MaxOf(qs);
      var b :| 0 <= b < |ms| && ms[b] == MaxOf(ms);
      assert exps[b].memorySlots == MaxOf(ms);
    }
  }

  /** Some circuit fails, so a first one does, and then the whole assembly fails. */
  lemma {:induction false} FirstFailure(cs: seq<Circuit>, k: nat)
    requires k < |cs| && ExperimentFor(cs[k]).Err?
    ensures ExperimentsFor(cs).Err?
    decreases k
  {
    hide ExperimentFor;
    if forall j :: 0 <= j < k ==> ExperimentFor(cs[j]).Ok? {
      ExperimentsStopAt(cs, k);
    } else {
      var j :| 0 <= j < k && ExperimentFor(cs[j]).Err?;
      FirstFailure(cs, j);
    }
  }
}
