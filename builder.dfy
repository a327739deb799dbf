/**
 * The `_PulseBuilder` object and the module-level builder functions. Each method
 * makes exactly the transition `BuilderSteps` defines for it.
 */
module Builder {
  import opened Wrappers
  import opened Errors
  import opened PulseChannels
  import opened Schedules
  import opened BS = BuilderSteps
  import opened Seqs

  // ---------------------------------------------------------------------------
  // The builder object
  // ---------------------------------------------------------------------------

  /** `_PulseBuilder`. */
  class PulseBuilder {
    /** The backend, settings and compiler. */
    const cfg: Config
    /** `_default_alignment_context`, chosen by `_align`. */
    const defaultAlignment: AlignmentPolicy
    /** `_block`: the active block. */
    var block: Schedule
    /** `_schedule`: the root program. */
    var root: Schedule
    /** `_lazy_circuit`: the buffered circuit, absent until a circuit is called. */
    var lazyCircuit: Option<Circuit>

    /** The fields as a `State`. */
    function Current(): BS.State
      reads this
    {
      BS.State(block, root, lazyCircuit)
    }

    ghost predicate Valid()
      reads this
    {
      ValidState(cfg, Current())
    }

    /**
     * `_PulseBuilder(backend, schedule, ...)` once `_align` has chosen `alignment`:
     * missing settings become `{}`, a missing schedule a new `Schedule()`, and the
     * active block a new `Schedule()` (the buffer is absent, so its flush does nothing).
     */
    constructor(backend: Option<Backend>, schedule: Option<Schedule>, alignment: AlignmentPolicy,
                transpilerSettings: Option<Settings>, schedulerSettings: Option<Settings>,
                compiler: (Circuit, Backend, Settings, Settings) -> Schedule)
      requires schedule.Some? ==> schedule.value.Composite?
      ensures Valid()
      ensures cfg == Config(backend, transpilerSettings.GetOr(map[]), schedulerSettings.GetOr(map[]), compiler)
      ensures defaultAlignment == alignment
      ensures Current() == BS.State(Empty, schedule.GetOr(Empty), None)
    {
      cfg := Config(backend, transpilerSettings.GetOr(map[]), schedulerSettings.GetOr(map[]), compiler);
      defaultAlignment := alignment;
      root := schedule.GetOr(Empty);
      lazyCircuit := None;
      block := Empty;
    }

    /** `_compile_lazy_circuit()`. */
    method CompileLazyCircuit() returns (r: Result<(), Error>)
      requires Valid()
      modifies this
      ensures Valid()
      ensures Step(r, Current()) == Flush(cfg, old(Current()))
    {
      if lazyCircuit.Some? && |lazyCircuit.value.data| > 0 {
        var backend := cfg.backend.value;
        var pending := lazyCircuit.value;
        lazyCircuit := Some(NewCircuit(backend));
        var sched := cfg.compiler(pending, backend, cfg.transpilerSettings, cfg.schedulerSettings);
        var appended := AppendMut(block, sched);
        if appended.Err? {
          return Err(appended.error);
        }
        block := appended.value;
      }
      r := Ok(());
    }

    /** `set_active_block(block)`. */
    method SetActiveBlock(b: Schedule) returns (r: Result<(), Error>)
      requires Valid() && b.Composite?
      modifies this
      ensures Valid()
      ensures Step(r, Current()) == BS.SetActiveBlock(cfg, old(Current()), b)
    {
      r := CompileLazyCircuit();
      if r.Err? {
        return;
      }
      block := b;
    }

    /** `append_block(block)`. */
    method AppendBlock(child: Schedule) returns (r: Result<(), Error>)
      requires Valid()
      modifies this
      ensures Valid()
      ensures Step(r, Current()) == BS.AppendBlock(cfg, old(Current()), child)
    {
      r := CompileLazyCircuit();
      if r.Err? {
        return;
      }
      var appended := AppendMut(block, child);
      if appended.Err? {
        return Err(appended.error);
      }
      block := appended.value;
    }

    /** `append_instruction(instruction)`: the same in-place append, of a leaf. */
    method AppendInstruction(instruction: Schedule) returns (r: Result<(), Error>)
      requires Valid() && instruction.Instruction?
      modifies this
      ensures Valid()
      ensures Step(r, Current()) == BS.AppendBlock(cfg, old(Current()), instruction)
    {
      r := CompileLazyCircuit();
      if r.Err? {
        return;
      }
      var appended := AppendMut(block, instruction);
      if appended.Err? {
        return Err(appended.error);
      }
      block := appended.value;
    }

    /** `compile()`. */
    method Compile(removeDirectives: Schedule -> Schedule) returns (r: Result<Schedule, Error>)
      requires Valid()
      modifies this
      ensures Valid()
      ensures Step(r, Current()) == BS.Compile(cfg, old(Current()), removeDirectives)
    {
      var flushed := CompileLazyCircuit();
      if flushed.Err? {
        return Err(flushed.error);
      }
      var built := removeDirectives(block);
      var program := AppendMut(root, built);
      if program.Err? {
        return Err(program.error);
      }
      root := program.value;
      // nothing is pending after the flush above, so this flush does nothing
      var _ := SetActiveBlock(Empty);
      r := Ok(program.value);
    }

    /** `call_circuit(circ, lazy)`. */
    method CallCircuit(circ: Circuit, lazy: bool) returns (r: Result<(), Error>)
      requires Valid()
      modifies this
      ensures Valid()
      ensures Step(r, Current()) == BS.CallCircuit(cfg, old(Current()), circ, lazy)
    {
      if cfg.backend.None? {
        return Err(BackendNotSet);
      }
      if lazyCircuit.None? {
        lazyCircuit := Some(NewCircuit(cfg.backend.value));
      }
      if lazy {
        lazyCircuit := Some(Extend(lazyCircuit.value, circ));
        return Ok(());
      }
      r := CompileLazyCircuit();
      if r.Err? {
        return;
      }
      lazyCircuit := Some(Extend(lazyCircuit.value, circ));
      r := CompileLazyCircuit();
    }

    /**
     * Entering a transform context: the saved block is returned. The block object
     * taken before `set_active_block` receives that call's flush, so it is read
     * here after flushing; the flush inside `set_active_block` then finds nothing.
     */
    method EnterTransform() returns (r: Result<Schedule, Error>)
      requires Valid()
      modifies this
      ensures Valid()
      ensures Step(r, Current()) == BS.EnterTransform(cfg, old(Current()))
    {
      var flushed := CompileLazyCircuit();
      if flushed.Err? {
        return Err(flushed.error);
      }
      var active := block;
      var _ := SetActiveBlock(Empty);
      r := Ok(active);
    }

    /** Leaving a transform context. */
    method ExitTransform(saved: Schedule, transform: Schedule -> Schedule) returns (r: Result<(), Error>)
      requires Valid() && saved.Composite?
      modifies this
      ensures Valid()
      ensures Step(r, Current()) == BS.ExitTransform(cfg, old(Current()), saved, transform)
    {
      r := CompileLazyCircuit();
      if r.Err? {
        return;
      }
      var transformed := transform(block);
      r := SetActiveBlock(saved);
      if r.Err? {
        return;
      }
      r := AppendBlock(transformed);
    }

    /** Leaving `inline()`: the inner block's instructions are appended one at a time. */
    method ExitInline(saved: Schedule) returns (r: Result<(), Error>)
      requires Valid() && saved.Composite?
      modifies this
      ensures Valid()
      ensures Step(r, Current()) == BS.ExitInline(cfg, old(Current()), saved)
    {
      r := CompileLazyCircuit();
      if r.Err? {
        return;
      }
      var inner := Leaves(Instructions(block));
      r := SetActiveBlock(saved);
      if r.Err? {
        return;
      }
      r := AppendEachInstruction(inner);
    }

    /** The `for instruction in ...: append_instruction(instruction)` loop of `inline()`. */
    method AppendEachInstruction(xs: seq<Schedule>) returns (r: Result<(), Error>)
      requires Valid() && forall k :: 0 <= k < |xs| ==> xs[k].Instruction?
      modifies this
      ensures Valid()
      ensures Step(r, Current()) == AppendEach(cfg, old(Current()), xs)
    {
      ghost var start := Current();
      var i := 0;
      while i < |xs|
        invariant 0 <= i <= |xs|
        invariant Valid()
        invariant AppendEach(cfg, start, xs[..i]) == Step(Ok(()), Current())
      {
        r := AppendInstruction(xs[i]);
        AppendEachSnoc(cfg, start, xs[..i], xs[i]);
        PrefixSnoc(xs, i);
        if r.Err? {
          AppendEachStops(cfg, start, xs, i + 1);
          return;
        }
        i := i + 1;
      }
      PrefixAll(xs);
      r := Ok(());
    }

    /** `__enter__`: enter the default alignment context; the root schedule is what the `with` binds. */
    method Enter() returns (saved: Result<Schedule, Error>, program: Schedule)
      requires Valid()
      modifies this
      ensures Valid()
      ensures program == old(root)
      ensures Step(saved, Current()) == BS.EnterTransform(cfg, old(Current()))
    {
      program := root;
      saved := EnterTransform();
    }

    /** `__exit__`: flush, leave the default alignment context, compile. */
    method Exit(saved: Schedule, alignTransform: Schedule -> Schedule, removeDirectives: Schedule -> Schedule)
      returns (r: Result<Schedule, Error>)
      requires Valid() && saved.Composite?
      modifies this
      ensures Valid()
      ensures Step(r, Current()) == ExitBuilder(cfg, old(Current()), saved, alignTransform, removeDirectives)
    {
      var flushed := CompileLazyCircuit();
      if flushed.Err? {
        return Err(flushed.error);
      }
      var exited := ExitTransform(saved, alignTransform);
      if exited.Err? {
        return Err(exited.error);
      }
      r := Compile(removeDirectives);
    }
  }

  // ---------------------------------------------------------------------------
  // Module-level builder functions
  // ---------------------------------------------------------------------------

  /** `_active_builder()`: the builder of the enclosing `with`, or NoActiveBuilder. */
  function ActiveBuilder(ctx: PulseBuilder?): (r: Result<PulseBuilder, Error>)
    ensures ctx == null <==> r == Err(NoActiveBuilder)
    ensures ctx != null ==> r.Ok? && r.value == ctx
  {
    if ctx == null then Err(NoActiveBuilder) else Ok(ctx as PulseBuilder)
  }

  /** `append_instruction(instruction)` at module level. */
  method AppendInstructionIn(ctx: PulseBuilder?, instruction: Schedule) returns (r: Result<(), Error>)
    requires ctx != null ==> ctx.Valid()
    requires instruction.Instruction?
    modifies ctx
    ensures ctx == null ==> r == Err(NoActiveBuilder)
    ensures ctx != null ==> ctx.Valid() && Step(r, ctx.Current()) == AppendBlock(ctx.cfg, old(ctx.Current()), instruction)
  {
    var b :- ActiveBuilder(ctx);
    r := b.AppendInstruction(instruction);
  }

  /** `shift_phase(phase, channel)`. */
  method ShiftPhaseIn(ctx: PulseBuilder?, phase: real, ch: Channel) returns (r: Result<(), Error>)
    requires ctx != null ==> ctx.Valid()
    modifies ctx
    ensures ctx == null ==> r == Err(NoActiveBuilder)
    ensures ctx != null ==> ctx.Valid() && Step(r, ctx.Current()) == AppendBlock(ctx.cfg, old(ctx.Current()), ShiftPhaseLeaf(phase, ch))
  {
    r := AppendInstructionIn(ctx, ShiftPhaseLeaf(phase, ch));
  }

  /** `acquire(duration, qubit_or_channel, register)`: an unsupported register raises before anything changes. */
  method AcquireIn(ctx: PulseBuilder?, duration: nat, q: QubitOrChannel, register: Channel) returns (r: Result<(), Error>)
    requires ctx != null ==> ctx.Valid()
    modifies ctx
    ensures AcquireLeaf(duration, q, register).Err? ==> r == Err(UnsupportedRegister) && (ctx != null ==> unchanged(ctx))
    ensures AcquireLeaf(duration, q, register).Ok? && ctx == null ==> r == Err(NoActiveBuilder)
    ensures AcquireLeaf(duration, q, register).Ok? && ctx != null ==>
              ctx.Valid() && Step(r, ctx.Current()) == AppendBlock(ctx.cfg, old(ctx.Current()), AcquireLeaf(duration, q, register).value)
  {
    var leaf :- AcquireLeaf(duration, q, register);
    r := AppendInstructionIn(ctx, leaf);
  }

  /** `call(target)`. */
  method CallIn(ctx: PulseBuilder?, target: Target) returns (r: Result<(), Error>)
    requires ctx != null ==> ctx.Valid()
    modifies ctx
    ensures target.OtherTarget? ==> r == Err(UnsupportedTarget) && (ctx != null ==> unchanged(ctx))
    ensures !target.OtherTarget? && ctx == null ==> r == Err(NoActiveBuilder)
    ensures !target.OtherTarget? && ctx != null ==> ctx.Valid() && Step(r, ctx.Current()) == Call(ctx.cfg, old(ctx.Current()), target)
  {
    match target
    case OtherTarget =>
      return Err(UnsupportedTarget);
    case CircuitTarget(c) =>
      var b :- ActiveBuilder(ctx);
      r := b.CallCircuit(c, true);
    case ScheduleTarget(sc) =>
      var b :- ActiveBuilder(ctx);
      r := b.AppendBlock(sc);
  }

  /** Entering `phase_offset(phase, channel)`: `shift_phase(phase, channel)`. */
  method PhaseOffsetEnter(ctx: PulseBuilder?, phase: real, ch: Channel) returns (r: Result<(), Error>)
    requires ctx != null ==> ctx.Valid()
    modifies ctx
    ensures ctx == null ==> r == Err(NoActiveBuilder)
    ensures ctx != null ==> ctx.Valid() && Step(r, ctx.Current()) == AppendBlock(ctx.cfg, old(ctx.Current()), ShiftPhaseLeaf(phase, ch))
  {
    r := ShiftPhaseIn(ctx, phase, ch);
  }

  /** Leaving `phase_offset(phase, channel)` (its `finally`): `shift_phase(-phase, channel)`. */
  method PhaseOffsetExit(ctx: PulseBuilder?, phase: real, ch: Channel) returns (r: Result<(), Error>)
    requires ctx != null ==> ctx.Valid()
    modifies ctx
    ensures ctx == null ==> r == Err(NoActiveBuilder)
    ensures ctx != null ==> ctx.Valid() && Step(r, ctx.Current()) == AppendBlock(ctx.cfg, old(ctx.Current()), ShiftPhaseLeaf(-phase, ch))
  {
    hide *;
    r := ShiftPhaseIn(ctx, -phase, ch);
  }

  /** `append_instruction` of a one-channel leaf landing at `t`, its channel's stop time, with nothing pending. */
  method AppendLeafIn(ctx: PulseBuilder, leaf: Schedule, ch: Channel, ghost t: int) returns (r: Result<(), Error>)
    requires ctx.Valid() && !Pending(ctx.lazyCircuit)
    requires ctx.block.shift == 0 && Valid(ctx.block) && leaf.Instruction? && leaf.channels == [ch]
    requires t == ChStopTime(ctx.block, {ch})
    modifies ctx
    ensures r.Ok? && ctx.Valid() && !Pending(ctx.lazyCircuit) && ctx.root == old(ctx.root)
    ensures ctx.block.shift == 0 && Valid(ctx.block) && ChStopTime(ctx.block, {ch}) == t + leaf.duration
    ensures Instructions(ctx.block) == Instructions(old(ctx.block)) + [(t, leaf)]
  {
    ghost var next := AppendLeafFacts(ctx.cfg, ctx.Current(), leaf, ch, t);
    r := AppendInstructionIn(ctx, leaf);
    assert ctx.Current() == next;
  }

  /**
   * A `phase_offset(phase, ch)` block holding one pulse on `ch`: the phase shift is
   * emitted on entry and undone on exit, around the pulse.
   */
  method PhaseOffsetAroundPulseIn(ctx: PulseBuilder, phase: real, ch: Channel, pulse: Schedule)
    returns (r: Result<(), Error>)
    requires ctx.Valid() && !Pending(ctx.lazyCircuit)
    requires ctx.block.shift == 0 && Valid(ctx.block) && pulse.Instruction? && pulse.channels == [ch]
    modifies ctx
    ensures r.Ok? && ctx.Valid() && ctx.root == old(ctx.root)
    ensures var t := ChStopTime(old(ctx.block), {ch});
            Instructions(ctx.block) == Instructions(old(ctx.block)) +
              [(t, ShiftPhaseLeaf(phase, ch)), (t, pulse), (t + pulse.duration, ShiftPhaseLeaf(-phase, ch))]
  {
    hide *;
    ghost var t := ChStopTime(ctx.block, {ch});
    ghost var i0 := Instructions(ctx.block);
    r := AppendLeafIn(ctx, ShiftPhaseLeaf(phase, ch), ch, t);
    ghost var i1 := Instructions(ctx.block);
    r := AppendLeafIn(ctx, pulse, ch, t);
    ghost var i2 := Instructions(ctx.block);
    r := AppendLeafIn(ctx, ShiftPhaseLeaf(-phase, ch), ch, t + pulse.duration);
    SnocThree(i0, i1, i2, Instructions(ctx.block),
              (t, ShiftPhaseLeaf(phase, ch)), (t, pulse), (t + pulse.duration, ShiftPhaseLeaf(-phase, ch)));
  }
}
