/**
 * The pulse builder: an active block that instructions are appended to, the
 * root schedule the built program is appended to, and a buffered circuit that
 * is compiled into pulses and appended to the active block before any call
 * that changes a block. Context managers save the active block, swap in a
 * fresh one, and on exit transform it and append it to the restored block.
 *
 * Each operation is a transition function on a `State` value; the class
 * `PulseBuilder` holds the same state in fields, and each of its methods is
 * proved to make exactly that transition.
 */
module BuilderSteps {
  import opened Wrappers
  import opened Errors
  import opened PulseChannels
  import opened Schedules
  import Ops
  import Alignment
  import TS = Timeslots
  import opened Seqs

  // ---------------------------------------------------------------------------
  // What the builder works with
  // ---------------------------------------------------------------------------

  /** A backend; the builder only asks it for its number of qubits. */
  datatype Backend = Backend(numQubits: nat)

  /** One circuit operation; its meaning is the compiler's business. */
  datatype Gate = Gate(name: string, qubits: seq<int>)

  /** A `QuantumCircuit`: its width and its operations in order. */
  datatype Circuit = Circuit(numQubits: nat, data: seq<Gate>)

  /** Transpiler and circuit-scheduler keyword settings. */
  type Settings = map<string, string>

  /** `QuantumCircuit(self.num_qubits)`: an empty circuit as wide as the backend. */
  function NewCircuit(backend: Backend): (r: Circuit)
    ensures r.numQubits == backend.numQubits && r.data == []
  {
    Circuit(backend.numQubits, [])
  }

  /** `circuit.extend(other)`: the other circuit's operations after this one's. */
  function Extend(c: Circuit, other: Circuit): (r: Circuit)
    ensures r.numQubits == c.numQubits && r.data == c.data + other.data
  {
    Circuit(c.numQubits, c.data + other.data)
  }

  /** `if self._lazy_circuit:` — a buffer is pending when it exists and has operations. */
  predicate Pending(lazyCircuit: Option<Circuit>) {
    lazyCircuit.Some? && |lazyCircuit.value.data| > 0
  }

  /**
   * What a builder is given and never changes: the backend, the settings, and the
   * circuit compiler (`transpile` followed by `schedule`) as an opaque function.
   */
  datatype Config = Config(backend: Option<Backend>, transpilerSettings: Settings, schedulerSettings: Settings,
                           compiler: (Circuit, Backend, Settings, Settings) -> Schedule)

  /** The fields the builder updates: `_block`, `_schedule` and `_lazy_circuit`. */
  datatype State = State(block: Schedule, root: Schedule, lazyCircuit: Option<Circuit>)

  /** Blocks are schedules, and a buffer only exists once a backend has been used to make it. */
  predicate ValidState(cfg: Config, s: State) {
    s.block.Composite? && s.root.Composite? && (s.lazyCircuit.Some? ==> cfg.backend.Some?)
  }

  /** What a call returns or raises, and the state it leaves (a raising call can leave a changed state). */
  datatype Step<T> = Step(result: Result<T, Error>, state: State)

  /** `block.append(child, mutate=True)`: the child is inserted in place at `append`'s time. */
  function AppendMut(block: Schedule, child: Schedule): (r: Result<Schedule, Error>)
    requires block.Composite?
    ensures r.Ok? ==> r.value.Composite? && r.value.shift == block.shift && Valid(r.value)
    ensures r.Err? ==> r.error == ScheduleOverlap
  {
    Alignment.InsertMut(block, Ops.AppendTime(block, child), child)
  }

  /** The schedule appending `child` in place at time `t` builds. */
  function Snoc(block: Schedule, child: Schedule, t: int): Schedule
    requires block.Composite?
  {
    Composite(block.name, block.children + [Composite(child.name, [child], t)], block.shift)
  }

  // ---------------------------------------------------------------------------
  // Transitions
  // ---------------------------------------------------------------------------

  /**
   * `_compile_lazy_circuit`: a pending buffer is replaced by a fresh circuit, then
   * compiled and appended to the active block (`call_schedule`, whose own flush
   * finds the fresh buffer empty). A buffer that is absent or empty changes nothing.
   */
  function Flush(cfg: Config, s: State): (r: Step<()>)
    requires ValidState(cfg, s)
    ensures ValidState(cfg, r.state) && !Pending(r.state.lazyCircuit)
    ensures r.state.root == s.root && (s.lazyCircuit.Some? <==> r.state.lazyCircuit.Some?)
    ensures !Pending(s.lazyCircuit) ==> r == Step(Ok(()), s)
    ensures r.result.Err? ==> r.state.block == s.block && r.result.error == ScheduleOverlap
  {
    if !Pending(s.lazyCircuit) then Step(Ok(()), s)
    else
      var backend := cfg.backend.value;
      var sched := cfg.compiler(s.lazyCircuit.value, backend, cfg.transpilerSettings, cfg.schedulerSettings);
      var emptied := s.(lazyCircuit := Some(NewCircuit(backend)));
      match AppendMut(s.block, sched)
      case Ok(b) => Step(Ok(()), emptied.(block := b))
      case Err(e) => Step(Err(e), emptied)
  }

  /** `set_active_block(block)`: flush, then make `block` the active block. */
  function SetActiveBlock(cfg: Config, s: State, block: Schedule): (r: Step<()>)
    requires ValidState(cfg, s) && block.Composite?
  {
    var f := Flush(cfg, s);
    if f.result.Err? then f else Step(Ok(()), f.state.(block := block))
  }

  /** `append_block(block)` and `append_instruction(instruction)`: flush, then append in place to the active block. */
  function AppendBlock(cfg: Config, s: State, child: Schedule): (r: Step<()>)
    requires ValidState(cfg, s)
  {
    var f := Flush(cfg, s);
    if f.result.Err? then f
    else
      match AppendMut(f.state.block, child)
      case Ok(b) => Step(Ok(()), f.state.(block := b))
      case Err(e) => Step(Err(e), f.state)
  }

  /**
   * `compile()`: flush, append the block without its directives (`remove_directives`,
   * opaque here) to the root in place, then start a fresh active block; the root is returned.
   */
  function Compile(cfg: Config, s: State, removeDirectives: Schedule -> Schedule): (r: Step<Schedule>)
    requires ValidState(cfg, s)
  {
    var f := Flush(cfg, s);
    if f.result.Err? then Step(Err(f.result.error), f.state)
    else
      match AppendMut(f.state.root, removeDirectives(f.state.block))
      case Err(e) => Step(Err(e), f.state)
      case Ok(program) =>
        var g := SetActiveBlock(cfg, f.state.(root := program), Empty);
        if g.result.Err? then Step(Err(g.result.error), g.state) else Step(Ok(program), g.state)
  }

  /**
   * `call_circuit(circ, lazy)`: needs a backend; creates the buffer if there is none,
   * then either extends it, or flushes, extends and flushes again.
   */
  function CallCircuit(cfg: Config, s: State, circ: Circuit, lazy: bool): (r: Step<()>)
    requires ValidState(cfg, s)
  {
    if cfg.backend.None? then Step(Err(BackendNotSet), s)
    else
      var s1 := if s.lazyCircuit.None? then s.(lazyCircuit := Some(NewCircuit(cfg.backend.value))) else s;
      if lazy then Step(Ok(()), s1.(lazyCircuit := Some(Extend(s1.lazyCircuit.value, circ))))
      else
        var f := Flush(cfg, s1);
        if f.result.Err? then f
        else Flush(cfg, f.state.(lazyCircuit := Some(Extend(f.state.lazyCircuit.value, circ))))
  }

  /**
   * Entering a transform context: the current block is remembered and a fresh one
   * set. `set_active_block` flushes into the remembered block object, so the saved
   * block is the block after the flush.
   */
  function EnterTransform(cfg: Config, s: State): (r: Step<Schedule>)
    requires ValidState(cfg, s)
  {
    var saved := Flush(cfg, s).state.block;
    var g := SetActiveBlock(cfg, s, Empty);
    if g.result.Err? then Step(Err(g.result.error), g.state) else Step(Ok(saved), g.state)
  }

  /**
   * Leaving a transform context (its `finally`): flush, transform the inner block,
   * restore the saved block and append the transformed block to it.
   */
  function ExitTransform(cfg: Config, s: State, saved: Schedule, transform: Schedule -> Schedule): (r: Step<()>)
    requires ValidState(cfg, s) && saved.Composite?
  {
    var f := Flush(cfg, s);
    if f.result.Err? then f
    else
      var transformed := transform(f.state.block);
      var g := SetActiveBlock(cfg, f.state, saved);
      if g.result.Err? then g else AppendBlock(cfg, g.state, transformed)
  }

  /** The leaves of a flattened instruction list, without their times. */
  function Leaves(fs: seq<(int, Schedule)>): (r: seq<Schedule>)
    ensures |r| == |fs| && forall k :: 0 <= k < |fs| ==> r[k] == fs[k].1
  {
    seq(|fs|, k requires 0 <= k < |fs| => fs[k].1)
  }

  /** `append_instruction` for each of `xs` in order, stopping at the first that raises. */
  function AppendEach(cfg: Config, s: State, xs: seq<Schedule>): (r: Step<()>)
    requires ValidState(cfg, s)
    ensures ValidState(cfg, r.state)
    decreases |xs|
  {
    if xs == [] then Step(Ok(()), s)
    else
      var p := AppendEach(cfg, s, xs[..|xs| - 1]);
      if p.result.Err? then p else AppendBlock(cfg, p.state, xs[|xs| - 1])
  }

  /**
   * Leaving `inline()` (its `finally`): flush, restore the saved block, then append
   * the inner block's instructions one by one, dropping their times.
   */
  function ExitInline(cfg: Config, s: State, saved: Schedule): (r: Step<()>)
    requires ValidState(cfg, s) && saved.Composite?
  {
    var f := Flush(cfg, s);
    if f.result.Err? then f
    else
      var g := SetActiveBlock(cfg, f.state, saved);
      if g.result.Err? then g else AppendEach(cfg, g.state, Leaves(Instructions(f.state.block)))
  }

  /**
   * Leaving the builder (`__exit__`): flush, leave the default alignment context
   * (whose transform is `alignTransform`), then compile.
   */
  function ExitBuilder(cfg: Config, s: State, saved: Schedule, alignTransform: Schedule -> Schedule,
                       removeDirectives: Schedule -> Schedule): (r: Step<Schedule>)
    requires ValidState(cfg, s) && saved.Composite?
  {
    var f := Flush(cfg, s);
    if f.result.Err? then Step(Err(f.result.error), f.state)
    else
      var g := ExitTransform(cfg, f.state, saved, alignTransform);
      if g.result.Err? then Step(Err(g.result.error), g.state) else Compile(cfg, g.state, removeDirectives)
  }

  // ---------------------------------------------------------------------------
  // Dispatch
  // ---------------------------------------------------------------------------

  /** The three alignment contexts `_align` can choose. */
  datatype AlignmentPolicy = AlignLeft | AlignRight | AlignSequential

  /** `_align(alignment)`: "left", "right" or "sequential"; any other name raises. */
  function Align(alignment: string): (r: Result<AlignmentPolicy, Error>)
    ensures r == Ok(AlignLeft) <==> alignment == "left"
    ensures r == Ok(AlignRight) <==> alignment == "right"
    ensures r == Ok(AlignSequential) <==> alignment == "sequential"
    ensures r.Err? <==> alignment !in {"left", "right", "sequential"}
    ensures r.Err? ==> r.error == UnsupportedAlignment(alignment)
  {
    if alignment == "left" then Ok(AlignLeft)
    else if alignment == "right" then Ok(AlignRight)
    else if alignment == "sequential" then Ok(AlignSequential)
    else Err(UnsupportedAlignment(alignment))
  }

  /** The name that selects a policy. */
  function PolicyName(p: AlignmentPolicy): string {
    match p
    case AlignLeft => "left"
    case AlignRight => "right"
    case AlignSequential => "sequential"
  }

  /** Every policy is selected by exactly its own name. */
  lemma AlignSelectsByName(p: AlignmentPolicy, alignment: string)
    ensures Align(PolicyName(p)) == Ok(p)
    ensures Align(alignment) == Ok(p) ==> alignment == PolicyName(p)
  {
  }

  /** The `qubit_or_channel` argument of `acquire`. */
  datatype QubitOrChannel = QubitIndex(qubit: int) | OnChannel(channel: Channel)

  /** `int` arguments become `AcquireChannel(qubit)`; channels are used as given. */
  function AcquireChannelOf(q: QubitOrChannel): (r: Channel)
    ensures q.QubitIndex? ==> r == Channel(AcquireChannel, q.qubit)
    ensures q.OnChannel? ==> r == q.channel
  {
    match q
    case QubitIndex(i) => Channel(AcquireChannel, i)
    case OnChannel(c) => c
  }

  /**
   * The instruction `acquire(duration, qubit_or_channel, register)` appends: a
   * memory slot is passed as `mem_slot`, a register slot as `reg_slot`, anything
   * else raises. The acquire occupies its channel and, like `AcquireInstruction`,
   * its memory slot, but not a register slot.
   */
  function AcquireLeaf(duration: nat, q: QubitOrChannel, register: Channel): (r: Result<Schedule, Error>)
    ensures register.kind == MemorySlot ==>
              r == Ok(Instruction(None, duration, [AcquireChannelOf(q), register], AcquireOp(register)))
    ensures register.kind == RegisterSlot ==>
              r == Ok(Instruction(None, duration, [AcquireChannelOf(q)], AcquireOp(register)))
    ensures r.Err? <==> register.kind !in {MemorySlot, RegisterSlot}
    ensures r.Err? ==> r.error == UnsupportedRegister
  {
    var ch := AcquireChannelOf(q);
    if register.kind == MemorySlot then Ok(Instruction(None, duration, [ch, register], AcquireOp(register)))
    else if register.kind == RegisterSlot then Ok(Instruction(None, duration, [ch], AcquireOp(register)))
    else Err(UnsupportedRegister)
  }

  /** The `target` of `call`: a circuit, a schedule, or something else. */
  datatype Target = CircuitTarget(circuit: Circuit) | ScheduleTarget(schedule: Schedule) | OtherTarget

  /** `call(target)`: a circuit is called lazily, a schedule is appended, anything else raises. */
  function Call(cfg: Config, s: State, target: Target): (r: Step<()>)
    requires ValidState(cfg, s)
    ensures target.CircuitTarget? ==> r == CallCircuit(cfg, s, target.circuit, true)
    ensures target.ScheduleTarget? ==> r == AppendBlock(cfg, s, target.schedule)
    ensures target.OtherTarget? ==> r == Step(Err(UnsupportedTarget), s)
  {
    match target
    case CircuitTarget(c) => CallCircuit(cfg, s, c, true)
    case ScheduleTarget(sc) => AppendBlock(cfg, s, sc)
    case OtherTarget => Step(Err(UnsupportedTarget), s)
  }

  /** `ShiftPhase(phase, channel)`: a zero-length instruction on the channel. */
  function ShiftPhaseLeaf(phase: real, ch: Channel): (r: Schedule)
    ensures r.Instruction? && r.duration == 0 && r.channels == [ch]
  {
    Instruction(None, 0, [ch], ShiftPhaseOp(phase))
  }

  // ---------------------------------------------------------------------------
  // Properties of the transitions
  // ---------------------------------------------------------------------------

  /** Flushing twice is flushing once: the first flush leaves nothing pending. */
  lemma FlushIdempotent(cfg: Config, s: State)
    requires ValidState(cfg, s)
    ensures Flush(cfg, Flush(cfg, s).state) == Step(Ok(()), Flush(cfg, s).state)
  {
  }

  /**
   * Every block-changing call flushes first: it leaves nothing pending, and when the
   * flush succeeds it acts exactly as it would on the flushed state.
   */
  lemma MutatorsFlushFirst(cfg: Config, s: State, b: Schedule, removeDirectives: Schedule -> Schedule)
    requires ValidState(cfg, s) && b.Composite?
    ensures !Pending(SetActiveBlock(cfg, s, b).state.lazyCircuit)
    ensures !Pending(AppendBlock(cfg, s, b).state.lazyCircuit)
    ensures !Pending(Compile(cfg, s, removeDirectives).state.lazyCircuit)
    ensures Flush(cfg, s).result.Ok? ==>
              var t := Flush(cfg, s).state;
              SetActiveBlock(cfg, s, b) == SetActiveBlock(cfg, t, b) &&
              AppendBlock(cfg, s, b) == AppendBlock(cfg, t, b) &&
              Compile(cfg, s, removeDirectives) == Compile(cfg, t, removeDirectives)
    ensures Flush(cfg, s).result.Err? ==>
              SetActiveBlock(cfg, s, b) == Flush(cfg, s) && AppendBlock(cfg, s, b) == Flush(cfg, s)
  {
    var f := Flush(cfg, s);
    if f.result.Ok? {
      FlushIdempotent(cfg, s);
      var c := Compile(cfg, f.state, removeDirectives);
      assert c.state.lazyCircuit == f.state.lazyCircuit;
    }
  }

  /** `FlattenChildren` of a child list with one more child: the old leaves, then the new child's. */
  lemma FlattenSnoc(cs: seq<Schedule>, c: Schedule, time: int)
    ensures FlattenChildren(cs + [c], time) == FlattenChildren(cs, time) + Flatten(c, time)
  {
    assert (cs + [c])[..|cs|] == cs;
  }

  /** A successful in-place append adds the child, wrapped with the append time as its shift, as the last child. */
  lemma AppendMutValue(block: Schedule, child: Schedule)
    requires block.Composite? && AppendMut(block, child).Ok?
    ensures AppendMut(block, child).value == Snoc(block, child, Ops.AppendTime(block, child))
  {
  }

  /** Appending in place adds the child's leaves after the block's, moved to where the child lands. */
  lemma AppendMutInstructions(block: Schedule, child: Schedule)
    requires block.Composite? && AppendMut(block, child).Ok?
    ensures Instructions(AppendMut(block, child).value) ==
            Instructions(block) + Flatten(child, Ops.AppendTime(block, child) + block.shift)
  {
    AppendMutValue(block, child);
    SnocInstructions(block, child, Ops.AppendTime(block, child));
  }

  /** Adding `child` wrapped at offset `t` as the last child appends the child's leaves moved by `t` and the block's shift. */
  lemma SnocInstructions(block: Schedule, child: Schedule, t: int)
    requires block.Composite?
    ensures Instructions(Snoc(block, child, t)) == Instructions(block) + Flatten(child, t + block.shift)
  {
    FlattenSnoc(block.children, Composite(child.name, [child], t), 0 + block.shift);
    assert [child][..0] == [];
    assert FlattenChildren([child], block.shift + t) == Flatten(child, block.shift + t);
  }

  /** Appending a leaf in place makes it the last leaf. */
  lemma AppendMutLeaves(block: Schedule, leaf: Schedule)
    requires block.Composite? && leaf.Instruction? && AppendMut(block, leaf).Ok?
    ensures Leaves(Instructions(AppendMut(block, leaf).value)) == Leaves(Instructions(block)) + [leaf]
  {
    AppendMutInstructions(block, leaf);
    var t := Ops.AppendTime(block, leaf) + block.shift;
    assert Flatten(leaf, t) == [(t, leaf)];
  }

  /** With nothing pending, appending is the in-place append alone; a collision leaves the state as it was. */
  lemma AppendBlockUnpending(cfg: Config, s: State, child: Schedule)
    requires ValidState(cfg, s) && !Pending(s.lazyCircuit)
    ensures AppendBlock(cfg, s, child) ==
            if AppendMut(s.block, child).Ok? then Step(Ok(()), s.(block := AppendMut(s.block, child).value))
            else Step(Err(ScheduleOverlap), s)
  {
  }

  /**
   * A successful flush of a pending buffer appends the compiled schedule's leaves to
   * the block, and leaves a fresh empty circuit as the buffer.
   */
  lemma FlushAppendsCompiled(cfg: Config, s: State)
    requires ValidState(cfg, s) && Pending(s.lazyCircuit) && Flush(cfg, s).result.Ok?
    ensures var sched := cfg.compiler(s.lazyCircuit.value, cfg.backend.value, cfg.transpilerSettings, cfg.schedulerSettings);
            Instructions(Flush(cfg, s).state.block) ==
              Instructions(s.block) + Flatten(sched, Ops.AppendTime(s.block, sched) + s.block.shift)
    ensures Flush(cfg, s).state.lazyCircuit == Some(NewCircuit(cfg.backend.value))
  {
    hide Alignment.InsertMut, Make, Ops.AppendTime, Instructions, Flatten;
    var sched := cfg.compiler(s.lazyCircuit.value, cfg.backend.value, cfg.transpilerSettings, cfg.schedulerSettings);
    AppendMutInstructions(s.block, sched);
  }

  /** Without a backend, `call_circuit` raises BackendNotSet and changes nothing. */
  lemma CallCircuitNeedsBackend(cfg: Config, s: State, circ: Circuit, lazy: bool)
    requires ValidState(cfg, s) && cfg.backend.None?
    ensures CallCircuit(cfg, s, circ, lazy) == Step(Err(BackendNotSet), s)
  {
  }

  /** A lazy call only buffers: the blocks stay and the circuit's operations join the buffer. */
  lemma LazyCallBuffers(cfg: Config, s: State, circ: Circuit)
    requires ValidState(cfg, s) && cfg.backend.Some?
    ensures var r := CallCircuit(cfg, s, circ, true);
            r.result.Ok? && r.state.block == s.block && r.state.root == s.root &&
            r.state.lazyCircuit.Some? &&
            r.state.lazyCircuit.value.data == (if s.lazyCircuit.Some? then s.lazyCircuit.value.data else []) + circ.data
  {
  }

  /** An eager call leaves nothing pending, and a non-empty circuit is compiled into the block right away. */
  lemma EagerCallCompiles(cfg: Config, s: State, circ: Circuit)
    requires ValidState(cfg, s) && cfg.backend.Some? && |circ.data| > 0
    requires CallCircuit(cfg, s, circ, false).result.Ok?
    ensures var r := CallCircuit(cfg, s, circ, false);
            !Pending(r.state.lazyCircuit) && r.state.lazyCircuit == Some(NewCircuit(cfg.backend.value)) &&
            r.state.root == s.root
  {
    var s1 := if s.lazyCircuit.None? then s.(lazyCircuit := Some(NewCircuit(cfg.backend.value))) else s;
    var f := Flush(cfg, s1);
    var s2 := f.state.(lazyCircuit := Some(Extend(f.state.lazyCircuit.value, circ)));
    assert Pending(s2.lazyCircuit);
  }

  /**
   * Leaving a transform context with nothing pending restores the saved block and
   * appends the transformed inner block to it; if that append raises, the saved
   * block is still restored.
   */
  lemma ExitRestoresAndAppends(cfg: Config, s: State, saved: Schedule, transform: Schedule -> Schedule)
    requires ValidState(cfg, s) && saved.Composite? && !Pending(s.lazyCircuit)
    ensures var r := ExitTransform(cfg, s, saved, transform);
            var appended := AppendMut(saved, transform(s.block));
            r.state.root == s.root && r.state.lazyCircuit == s.lazyCircuit &&
            (appended.Ok? ==> r == Step(Ok(()), s.(block := appended.value))) &&
            (appended.Err? ==> r == Step(Err(ScheduleOverlap), s.(block := saved)))
  {
  }

  /** Entering a transform context with nothing pending saves the block and starts an empty one. */
  lemma EnterSwapsInEmpty(cfg: Config, s: State)
    requires ValidState(cfg, s) && !Pending(s.lazyCircuit)
    ensures EnterTransform(cfg, s) == Step(Ok(s.block), s.(block := Empty))
  {
  }

  /** When every append succeeds, the appended leaves come after the block's leaves, in order. */
  lemma {:induction false} AppendEachLeaves(cfg: Config, s: State, xs: seq<Schedule>)
    requires ValidState(cfg, s) && !Pending(s.lazyCircuit)
    requires forall k :: 0 <= k < |xs| ==> xs[k].Instruction?
    requires AppendEach(cfg, s, xs).result.Ok?
    ensures Leaves(Instructions(AppendEach(cfg, s, xs).state.block)) == Leaves(Instructions(s.block)) + xs
    ensures AppendEach(cfg, s, xs).state.lazyCircuit == s.lazyCircuit && AppendEach(cfg, s, xs).state.root == s.root
    decreases |xs|
  {
    if xs != [] {
      var front, last := xs[..|xs| - 1], xs[|xs| - 1];
      var p := AppendEach(cfg, s, front);
      assert p.result.Ok?;
      AppendEachLeaves(cfg, s, front);
      var l0, l1 := Leaves(Instructions(s.block)), Leaves(Instructions(p.state.block));
      AppendBlockUnpending(cfg, p.state, last);
      AppendMutLeaves(p.state.block, last);
      SnocTwo(l0, front, last, xs);
    }
  }

  /**
   * Leaving `inline()` with nothing pending: when every append succeeds, the restored
   * block's leaves are followed by the inner block's leaves, in their order.
   */
  lemma InlineAppendsInOrder(cfg: Config, s: State, saved: Schedule)
    requires ValidState(cfg, s) && saved.Composite? && !Pending(s.lazyCircuit)
    requires ExitInline(cfg, s, saved).result.Ok?
    ensures Leaves(Instructions(ExitInline(cfg, s, saved).state.block)) ==
            Leaves(Instructions(saved)) + Leaves(Instructions(s.block))
    ensures ExitInline(cfg, s, saved).state.root == s.root
  {
    var g := s.(block := saved);
    assert SetActiveBlock(cfg, s, saved) == Step(Ok(()), g);
    var xs := Leaves(Instructions(s.block));
    assert forall k :: 0 <= k < |xs| ==> xs[k].Instruction?;
    AppendEachLeaves(cfg, g, xs);
  }

  /** A one-channel leaf appended in place to a collision-free block lands at the block's stop time on that channel. */
  lemma AppendMutLeaf(block: Schedule, leaf: Schedule, c: Channel)
    requires block.Composite? && block.shift == 0 && Valid(block) && leaf.Instruction? && leaf.channels == [c]
    ensures AppendMut(block, leaf) == Ok(Snoc(block, leaf, ChStopTime(block, {c})))
  {
    Ops.AppendLeafTime(block, leaf, c);
    LeafValid(leaf.name, leaf.duration, leaf.channels, leaf.payload);
    Ops.AppendNeverCollides(block, leaf, None);
  }

  /** That schedule is collision-free and unshifted again. */
  lemma SnocLeafValid(block: Schedule, leaf: Schedule, c: Channel)
    requires block.Composite? && block.shift == 0 && Valid(block) && leaf.Instruction? && leaf.channels == [c]
    ensures Valid(Snoc(block, leaf, ChStopTime(block, {c}))) && Snoc(block, leaf, ChStopTime(block, {c})).shift == 0
  {
    AppendMutLeaf(block, leaf, c);
  }

  /** In it the leaf is the last instruction, at the block's old stop time on its channel. */
  lemma SnocLeafInstructions(block: Schedule, leaf: Schedule, c: Channel)
    requires block.Composite? && block.shift == 0 && Valid(block) && leaf.Instruction? && leaf.channels == [c]
    ensures Instructions(Snoc(block, leaf, ChStopTime(block, {c}))) == Instructions(block) + [(ChStopTime(block, {c}), leaf)]
  {
    hide AppendMut, Alignment.InsertMut, Make, Ops.AppendTime, Instructions, ChStopTime, Valid, TimeslotsOf;
    AppendMutLeaf(block, leaf, c);
    AppendMutInstructions(block, leaf);
    Ops.AppendLeafTime(block, leaf, c);
  }

  /** And the leaf's channel now stops `leaf.duration` later. */
  lemma SnocLeafStop(block: Schedule, leaf: Schedule, c: Channel)
    requires block.Composite? && block.shift == 0 && Valid(block) && leaf.Instruction? && leaf.channels == [c]
    ensures ChStopTime(Snoc(block, leaf, ChStopTime(block, {c})), {c}) == ChStopTime(block, {c}) + leaf.duration
  {
    hide Alignment.InsertMut, Make, Valid, TS.NoOverlap, Instructions;
    var t := ChStopTime(block, {c});
    Alignment.InsertMutSlots(block, t, leaf);
    assert TimeslotsOf(Snoc(block, leaf, t)) == TimeslotsOf(block) + TS.Shift(TimeslotsOf(leaf), t);
    Ops.LeafStop(TimeslotsOf(block), leaf, c, t, c);
  }

  /** `append_instruction` of a one-channel leaf with nothing pending. */
  lemma AppendLeafStep(cfg: Config, s: State, leaf: Schedule, c: Channel)
    requires ValidState(cfg, s) && !Pending(s.lazyCircuit)
    requires s.block.shift == 0 && Valid(s.block) && leaf.Instruction? && leaf.channels == [c]
    ensures AppendBlock(cfg, s, leaf) == Step(Ok(()), s.(block := Snoc(s.block, leaf, ChStopTime(s.block, {c}))))
  {
    AppendBlockUnpending(cfg, s, leaf);
    AppendMutLeaf(s.block, leaf, c);
  }

  /**
   * `append_instruction` of a one-channel leaf with nothing pending, as facts about
   * the state it leaves: no collision, the leaf is the last instruction, at `t`, the
   * old stop time of its channel, which grows by the leaf's duration.
   */
  lemma AppendLeafFacts(cfg: Config, s: State, leaf: Schedule, c: Channel, t: int) returns (next: State)
    requires ValidState(cfg, s) && !Pending(s.lazyCircuit)
    requires s.block.shift == 0 && Valid(s.block) && leaf.Instruction? && leaf.channels == [c]
    requires t == ChStopTime(s.block, {c})
    ensures AppendBlock(cfg, s, leaf) == Step(Ok(()), next)
    ensures ValidState(cfg, next) && next.lazyCircuit == s.lazyCircuit && next.root == s.root
    ensures next.block.shift == 0 && Valid(next.block)
    ensures ChStopTime(next.block, {c}) == t + leaf.duration
    ensures Instructions(next.block) == Instructions(s.block) + [(t, leaf)]
  {
    hide AppendBlock, Flush, AppendMut, Alignment.InsertMut, Make, Ops.AppendTime, Instructions, ChStopTime, Valid, TimeslotsOf;
    AppendLeafStep(cfg, s, leaf, c);
    next := s.(block := Snoc(s.block, leaf, t));
    SnocLeafValid(s.block, leaf, c);
    SnocLeafStop(s.block, leaf, c);
    SnocLeafInstructions(s.block, leaf, c);
  }

  /**
   * `phase_offset(phase, ch)` around one one-channel pulse on `ch`: three
   * instructions are appended — the phase shift, the pulse, and the inverse
   * phase shift after the pulse.
   */
  lemma PhaseOffsetAroundPulse(cfg: Config, s: State, phase: real, ch: Channel, pulse: Schedule)
    returns (s1: State, s2: State, s3: State)
    requires ValidState(cfg, s) && !Pending(s.lazyCircuit)
    requires s.block.shift == 0 && Valid(s.block) && pulse.Instruction? && pulse.channels == [ch]
    ensures AppendBlock(cfg, s, ShiftPhaseLeaf(phase, ch)) == Step(Ok(()), s1)
    ensures AppendBlock(cfg, s1, pulse) == Step(Ok(()), s2)
    ensures AppendBlock(cfg, s2, ShiftPhaseLeaf(-phase, ch)) == Step(Ok(()), s3)
    ensures s3.root == s.root && s3.lazyCircuit == s.lazyCircuit
    ensures var t := ChStopTime(s.block, {ch});
            Instructions(s3.block) == Instructions(s.block) +
              [(t, ShiftPhaseLeaf(phase, ch)), (t, pulse), (t + pulse.duration, ShiftPhaseLeaf(-phase, ch))]
  {
    hide *;
    var t := ChStopTime(s.block, {ch});
    var p1, p2 := ShiftPhaseLeaf(phase, ch), ShiftPhaseLeaf(-phase, ch);
    s1 := AppendLeafFacts(cfg, s, p1, ch, t);
    s2 := AppendLeafFacts(cfg, s1, pulse, ch, t);
    s3 := AppendLeafFacts(cfg, s2, p2, ch, t + pulse.duration);
    SnocThree(Instructions(s.block), Instructions(s1.block), Instructions(s2.block), Instructions(s3.block),
              (t, p1), (t, pulse), (t + pulse.duration, p2));
  }

  /** One more instruction: it is appended unless an earlier append raised. */
  lemma AppendEachSnoc(cfg: Config, s: State, xs: seq<Schedule>, x: Schedule)
    requires ValidState(cfg, s)
    ensures var p := AppendEach(cfg, s, xs);
            AppendEach(cfg, s, xs + [x]) == if p.result.Err? then p else AppendBlock(cfg, p.state, x)
  {
    assert (xs + [x])[..|xs|] == xs;
  }

  /** Once an append in the sequence raises, the rest are not attempted: the whole sequence reports that step. */
  lemma {:induction false} AppendEachStops(cfg: Config, s: State, xs: seq<Schedule>, n: nat)
    requires ValidState(cfg, s) && 0 < n <= |xs|
    requires AppendEach(cfg, s, xs[..n]).result.Err?
    ensures AppendEach(cfg, s, xs) == AppendEach(cfg, s, xs[..n])
    decreases |xs| - n
  {
    if n < |xs| {
      PrefixSnoc(xs, n);
      AppendEachStops(cfg, s, xs, n + 1);
    } else {
      PrefixAll(xs);
    }
  }

}
