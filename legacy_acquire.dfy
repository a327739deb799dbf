/**
 * The older acquire command: a zero-length command that records the qubit and
 * slots it measures into, with a discriminator and a kernel that default when
 * not supplied.
 */
module LegacyAcquire {
  import opened Wrappers
  import opened Errors

  /** `Discriminator(name, params)` once built. */
  datatype Discriminator = Discriminator(name: string, params: seq<real>)

  /** `Kernel(name, params)` once built. */
  datatype Kernel = Kernel(name: string, params: seq<real>)

  /**
   * An optional object argument as `if x: isinstance(x, T)` sees it: a falsy
   * value (such as `None`), a truthy object of the expected class, or a truthy
   * object of another class.
   */
  datatype ObjectArg<T> = Missing | Given(value: T) | WrongType

  /** `Discriminator(name="max_1Q_fidelity", params=None)`; `None` for the name means it was left out. */
  function MakeDiscriminator(name: Option<string>, params: Option<seq<real>>): (r: Discriminator)
    ensures name.None? ==> r.name == "max_1Q_fidelity"
    ensures name.Some? ==> r.name == name.value
    ensures params.Some? && params.value != [] ==> r.params == params.value
    ensures params.None? || params.value == [] ==> r.params == [0.0, 0.0]
  {
    Discriminator(name.GetOr("max_1Q_fidelity"), if params.Some? && params.value != [] then params.value else [0.0, 0.0])
  }

  /** `Kernel(name="boxcar", params=None)`. */
  function MakeKernel(name: Option<string>, params: Option<seq<real>>): (r: Kernel)
    ensures name.None? ==> r.name == "boxcar"
    ensures name.Some? ==> r.name == name.value
    ensures params.Some? && params.value != [] ==> r.params == params.value
    ensures params.None? || params.value == [] ==> r.params == []
  {
    Kernel(name.GetOr("boxcar"), if params.Some? && params.value != [] then params.value else [])
  }

  /** A built discriminator never has empty parameters: an empty list is replaced by `[0, 0]`. */
  lemma DiscriminatorParamsNonEmpty(name: Option<string>, params: Option<seq<real>>)
    ensures |MakeDiscriminator(name, params).params| >= 1
  {
  }

  /** Passing an empty parameter list is the same as passing none. */
  lemma EmptyParamsAreDefaults(name: Option<string>)
    ensures MakeDiscriminator(name, Some([])) == MakeDiscriminator(name, None)
    ensures MakeKernel(name, Some([])) == MakeKernel(name, None)
  {
  }

  /** The legacy `Acquire`: duration, qubit, memory slot, optional register slot, discriminator and kernel. */
  datatype Acquire = Acquire(duration: int, qubit: int, memorySlot: int, registerSlot: Option<int>,
                             discriminator: Discriminator, kernel: Kernel)

  /**
   * `Acquire(qubit, memory_slot, register_slot=None, discriminator=None, kernel=None)`:
   * the discriminator is checked before the kernel; a missing one is defaulted.
   */
  function MakeAcquire(qubit: int, memorySlot: int, registerSlot: Option<int>,
                       discriminator: ObjectArg<Discriminator>, kernel: ObjectArg<Kernel>): (r: Result<Acquire, Error>)
    ensures discriminator.WrongType? ==> r == Err(LegacyInvalidDiscriminator)
    ensures !discriminator.WrongType? && kernel.WrongType? ==> r == Err(LegacyInvalidKernel)
    ensures r.Ok? <==> !discriminator.WrongType? && !kernel.WrongType?
    ensures r.Ok? ==> r.value.duration == 0 && r.value.qubit == qubit && r.value.memorySlot == memorySlot &&
                      r.value.registerSlot == registerSlot
    ensures r.Ok? ==> r.value.discriminator == (if discriminator.Given? then discriminator.value else MakeDiscriminator(None, None))
    ensures r.Ok? ==> r.value.kernel == (if kernel.Given? then kernel.value else MakeKernel(None, None))
  {
    var disc :- match discriminator
      case Missing => Ok(MakeDiscriminator(None, None))
      case Given(d) => Ok(d)
      case WrongType => Err(LegacyInvalidDiscriminator);
    var kern :- match kernel
      case Missing => Ok(MakeKernel(None, None))
      case Given(k) => Ok(k)
      case WrongType => Err(LegacyInvalidKernel);
    Ok(Acquire(0, qubit, memorySlot, registerSlot, disc, kern))
  }

  /** With no discriminator and no kernel, the defaults are the documented ones. */
  lemma DefaultAcquire(qubit: int, memorySlot: int)
    ensures MakeAcquire(qubit, memorySlot, None, Missing, Missing) ==
            Ok(Acquire(0, qubit, memorySlot, None, Discriminator("max_1Q_fidelity", [0.0, 0.0]), Kernel("boxcar", [])))
  {
  }
}
