/** Backend identifiers, the error taxonomy, the per-backend capability
    facts and kernel declarations of kernelpp (include/kernelpp/kernel.h). */
module Kernel {

  /** compute_mode: Auto asks the dispatcher to choose; the others are the
      concrete backends. */
  datatype Mode = Auto | Cuda | Avx | Cpu

  /** error_code, in declaration order. */
  datatype ErrorCode =
    | None                    // the kernel ran and completed successfully
    | ComputeModeDisabled     // the mode was not enabled at compile time
    | ComputeModeUnavailable  // the mode is unavailable at run time
    | KernelNotDefined        // the kernel has no implementation for the mode
    | KernelFailed            // the kernel ran and failed
    | Cancelled               // the kernel was cancelled before it began

  /** The answer of a partial decoder. */
  datatype Decoded<T> = Known(value: T) | Unknown

  /** error_code's underlying type. */
  newtype uint8 = x: int | 0 <= x < 0x100

  /* Underlying values of the enumerators -------------------------------- */

  /** compute_mode numbers its enumerators from AUTO = 1. */
  function ModeValue(m: Mode): int
  {
    match m
    case Auto => 1
    case Cuda => 2
    case Avx => 3
    case Cpu => 4
  }

  function ModeOfValue(v: int): (r: Decoded<Mode>)
    ensures r.Known? <==> 1 <= v <= 4
    ensures r.Known? ==> ModeValue(r.value) == v
  {
    if v == 1 then Known(Auto)
    else if v == 2 then Known(Cuda)
    else if v == 3 then Known(Avx)
    else if v == 4 then Known(Cpu)
    else Unknown
  }

  /** error_code numbers its enumerators from NONE = 0. */
  function ErrorCodeValue(c: ErrorCode): uint8
  {
    match c
    case None => 0
    case ComputeModeDisabled => 1
    case ComputeModeUnavailable => 2
    case KernelNotDefined => 3
    case KernelFailed => 4
    case Cancelled => 5
  }

  function ErrorCodeOfValue(v: uint8): (r: Decoded<ErrorCode>)
    ensures r.Known? <==> v <= 5
    ensures r.Known? ==> ErrorCodeValue(r.value) == v
  {
    if v == 0 then Known(None)
    else if v == 1 then Known(ComputeModeDisabled)
    else if v == 2 then Known(ComputeModeUnavailable)
    else if v == 3 then Known(KernelNotDefined)
    else if v == 4 then Known(KernelFailed)
    else if v == 5 then Known(Cancelled)
    else Unknown
  }

  /* to_str ---------------------------------------------------------------- */

  /** to_str(error_code) on an enumerator. */
  function ErrorCodeStr(c: ErrorCode): string
  {
    match c
    case KernelFailed => "Kernel Failed"
    case ComputeModeDisabled => "Compute Mode Disabled"
    case ComputeModeUnavailable => "Compute Mode Unavailable"
    case KernelNotDefined => "Kernel Not Defined"
    case Cancelled => "Cancelled"
    case None => "Success"
  }

  /** to_str(error_code) on any value of the underlying type: a value that
      names no enumerator falls through the switch to "Unknown". */
  function ErrorCodeValueStr(v: uint8): (s: string)
    ensures s == "Unknown" <==> v > 5
    ensures v <= 5 ==> ParseErrorCode(s) == ErrorCodeOfValue(v)
  {
    match ErrorCodeOfValue(v)
    case Known(c) => ErrorCodeStrRoundTrip(c); ErrorCodeStr(c)
    case Unknown => "Unknown"
  }

  /** Reads an error message back into the code it names. */
  function ParseErrorCode(s: string): (r: Decoded<ErrorCode>)
    ensures r.Known? ==> ErrorCodeStr(r.value) == s
  {
    if s == "Success" then Known(None)
    else if s == "Compute Mode Disabled" then Known(ComputeModeDisabled)
    else if s == "Compute Mode Unavailable" then Known(ComputeModeUnavailable)
    else if s == "Kernel Not Defined" then Known(KernelNotDefined)
    else if s == "Kernel Failed" then Known(KernelFailed)
    else if s == "Cancelled" then Known(Cancelled)
    else Unknown
  }

  /** Every code's string reads back as that code, and none is "Unknown". */
  lemma ErrorCodeStrRoundTrip(c: ErrorCode)
    ensures ParseErrorCode(ErrorCodeStr(c)) == Known(c)
    ensures ErrorCodeStr(c) != "Unknown"
  {
  }

  /** The six codes have six distinct strings. */
  lemma ErrorCodeStrInjective(c: ErrorCode, d: ErrorCode)
    requires ErrorCodeStr(c) == ErrorCodeStr(d)
    ensures c == d
  {
    ErrorCodeStrRoundTrip(c);
    ErrorCodeStrRoundTrip(d);
  }

  /** to_str(compute_mode) on an enumerator. */
  function ModeStr(m: Mode): string
  {
    match m
    case Cpu => "CPU"
    case Cuda => "Cuda"
    case Avx => "AVX"
    case Auto => "Auto"
  }

  /** to_str(compute_mode) on any value of the underlying type. */
  function ModeValueStr(v: int): (s: string)
    ensures s == "Unknown" <==> !(1 <= v <= 4)
    ensures 1 <= v <= 4 ==> ParseMode(s) == ModeOfValue(v)
  {
    match ModeOfValue(v)
    case Known(m) => ModeStrRoundTrip(m); ModeStr(m)
    case Unknown => "Unknown"
  }

  function ParseMode(s: string): (r: Decoded<Mode>)
    ensures r.Known? ==> ModeStr(r.value) == s
  {
    if s == "CPU" then Known(Cpu)
    else if s == "Cuda" then Known(Cuda)
    else if s == "AVX" then Known(Avx)
    else if s == "Auto" then Known(Auto)
    else Unknown
  }

  lemma ModeStrRoundTrip(m: Mode)
    ensures ParseMode(ModeStr(m)) == Known(m)
    ensures ModeStr(m) != "Unknown"
  {
  }

  lemma ModeStrInjective(m: Mode, n: Mode)
    requires ModeStr(m) == ModeStr(n)
    ensures m == n
  {
    ModeStrRoundTrip(m);
    ModeStrRoundTrip(n);
  }

  /* compute_traits -------------------------------------------------------- */

  /** The build flags kernelpp_WITH_AVX and kernelpp_WITH_CUDA. */
  datatype BuildConfig = BuildConfig(withAvx: bool, withCuda: bool)

  /** What the hardware probes answer on this machine: init_avx() and
      init_cudart(), each computed once and cached. */
  datatype Probes = Probes(avx: bool, cuda: bool)

  /** compute_traits<M>::enabled: the primary template says false; CPU is
      specialised to true; AVX and CUDA are specialised to true only under
      their build flag. */
  function Enabled(cfg: BuildConfig, m: Mode): bool
  {
    match m
    case Cpu => true
    case Avx => cfg.withAvx
    case Cuda => cfg.withCuda
    case Auto => false
  }

  /** compute_traits<M>::available(): false for an unspecialised mode (so
      no probe is consulted), true for CPU, and the probe's answer for a
      specialised AVX or CUDA. */
  function Available(cfg: BuildConfig, probes: Probes, m: Mode): (r: bool)
    ensures r ==> Enabled(cfg, m)
  {
    match m
    case Cpu => true
    case Avx => if cfg.withAvx then probes.avx else false
    case Cuda => if cfg.withCuda then probes.cuda else false
    case Auto => false
  }

  /** A mode without a specialisation, Auto among them, is neither enabled
      nor available, whatever its probe would say. */
  lemma DefaultTraits(cfg: BuildConfig, probes: Probes, m: Mode)
    requires m == Auto || (m == Avx && !cfg.withAvx) || (m == Cuda && !cfg.withCuda)
    ensures !Enabled(cfg, m) && !Available(cfg, probes, m)
  {
  }

  /** The baseline backend is usable in every build on every machine. */
  lemma CpuAlwaysUsable(cfg: BuildConfig, probes: Probes)
    ensures Enabled(cfg, Cpu) && Available(cfg, probes, Cpu)
  {
  }

  /** With its build flag on, an accelerated backend defers to its probe. */
  lemma FlaggedModesDeferToProbe(cfg: BuildConfig, probes: Probes)
    ensures cfg.withAvx ==> Enabled(cfg, Avx) && Available(cfg, probes, Avx) == probes.avx
    ensures cfg.withCuda ==> Enabled(cfg, Cuda) && Available(cfg, probes, Cuda) == probes.cuda
  {
  }

  /* Kernel declarations --------------------------------------------------- */

  /** detail::has_mode<M, Modes...>: M compared with the head of the list,
      then with the rest; the empty list has no mode. */
  function HasMode(m: Mode, modes: seq<Mode>): (r: bool)
    ensures r <==> m in modes
  {
    if modes == [] then false
    else m == modes[0] || HasMode(m, modes[1..])
  }

  /** What KERNEL_DECL(Name, Modes...) fixes: the kernel's name and the
      list of modes it implements. */
  datatype Decl = Decl(name: string, modes: seq<Mode>)

  /** impl<Traits, Modes...>::supports<M>. */
  predicate Supports(d: Decl, m: Mode)
  {
    HasMode(m, d.modes)
  }
}
