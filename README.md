# kernelpp backend dispatch, modelled in Dafny

kernelpp lets a program declare a *kernel* with one implementation (`op<M>`) per
backend it supports: CPU, AVX or CUDA. The program then calls the kernel through
`run` or `run_with`, naming a backend or `AUTO`. This model covers the engine
behind that call:

- **Capability facts.** Each backend has an `enabled` flag, a build-time
  constant, and an `available()` answer, a cached probe.
- **Support test.** `has_mode`/`supports` checks a mode against the kernel's
  declared mode list.
- **`control<M>::call`.** For a concrete mode, the dispatcher asks the begin
  hook, runs `apply`, then tells the end hook the code. `AUTO` tries CUDA, then
  AVX, then CPU.
- **Output traits.** The runner's `apply` overloads use the op's return shape
  (void, value, variant or error code) to build the internal result.
  `op_traits::get_errc` reads the error code from that result.
- **`detail::convert`.** It turns the internal result into the public `maybe<R>`
  or `status`, using the fixed `to_str` tables.
- **`init_avx`.** It decides AVX support from CPUID leaf 1 ECX and XCR0, once,
  and caches the answer.

Modules:
- `Kernel` (kernel.dfy): the enums and their `to_str` tables, the build flags
  (`BuildConfig`), the probe answers (`Probes`), `Enabled`, `Available`,
  `HasMode` and kernel declarations.
- `Results` (results.dfy): the return shapes, the internal `Output`,
  `GetErrc`, `Wrap` (apply's normalisation) and `Convert`.
- `Dispatch` (dispatch.dfy): the dispatcher as functions. For each call they give
  the result and the ordered list of events: begin asked about a mode, an op
  executed, end told a code. The lemmas about the dispatcher are here.
- `Runners` (runners.dfy): the dispatcher run step by step. A `Runner`
  object has hooks and `Apply`, and its trace records each event. The control,
  `run` and `run_with` methods drive it, and each is proved to produce exactly
  the result and trace that `Dispatch` specifies. `Call`, `RunWith` and `Run`
  take `AUTO` with the corrected guards (see Findings); `CallAutoAsWritten`,
  `CallAsWritten` and `RunAsWritten` take it as kernel_invoke.h writes it.
- `Scenarios` (scenarios.dfy): the kernels of test/lib_test.cpp and its
  expectations, for every build and every probe answer.
- `AvxProbe` (avx.dfy): the AVX feature decision and the once-cache.

Inputs that come from outside the core are parameters:
- the build flags `kernelpp_WITH_AVX` and `kernelpp_WITH_CUDA`;
- the cached answers of `init_avx` and `init_cudart` (the `Probes` value;
  `AvxProbe.MachineProbes` builds it with the AVX answer read through
  `AvxCache.InitAvx`, and the dispatch lemmas hold for every `Probes` value);
- the CPUID and XCR0 words;
- the begin hook's answer (the set `vetoed` of modes it refuses; the default
  runner and `log_runner` refuse none);
- what each kernel op returns.

A kernel op's other side effects are observed as `Ran(m)` events. The tests'
per-backend call counters are the occurrences of `m` in `Execs(trace)`.

Behaviours of the code a reader may not expect:
- **Hooks fire for an unsupported mode.** For an enabled mode the kernel does
  not support, begin is called and end receives `KERNEL_NOT_DEFINED`. The
  support check happens inside `apply`, after begin.
- **A cancel skips end.** When begin cancels, end is not called.
- **A disabled mode wins over an unsupported one.** A concrete mode that is not
  enabled yields `COMPUTE_MODE_DISABLED` even when the kernel does not support
  it, although kernel.h:42-44 describes `KERNEL_NOT_DEFINED` as the code for
  a kernel that does not support the requested mode.
- **Nothing produces `COMPUTE_MODE_UNAVAILABLE`.** A concrete mode that is
  enabled but not available is still executed.
- **`AUTO` guards.** See Findings.

Two further behaviours are kept as the code has them:
- **A variant holding `NONE` converts to an error.** `convert` of a variant that
  holds the code `NONE` gives the error message "Success", not a value.
- **AVX without OSXSAVE counts as usable.** When CPUID reports AVX but not
  OSXSAVE, `init_avx` reports AVX as usable without reading XCR0.

## Model

| member | source | states |
|---|---|---|
| `Kernel.ErrorCodeStrRoundTrip` | include/kernelpp/kernel.h:122-132 | each of the six codes' fixed strings reads back as that code, and none is "Unknown" |
| `Kernel.ErrorCodeStrInjective` | include/kernelpp/kernel.h:122-132 | the six codes have six distinct strings |
| `Kernel.ErrorCodeValueStr` | include/kernelpp/kernel.h:122-132 | on an underlying `uint8_t` value, to_str answers "Unknown" exactly for values naming no enumerator, and otherwise the string of the code with that value |
| `Kernel.ParseErrorCode` | include/kernelpp/kernel.h:122-132 | a message decodes only to a code whose string it is |
| `Kernel.ErrorCodeOfValue` | include/kernelpp/kernel.h:29-52 | the values 0 to 5 name the six codes, in declaration order from NONE = 0 |
| `Kernel.ModeStrRoundTrip` | include/kernelpp/kernel.h:134-142 | CPU, CUDA, AVX and AUTO map to "CPU", "Cuda", "AVX" and "Auto", each reading back as its mode, none "Unknown" |
| `Kernel.ModeStrInjective` | include/kernelpp/kernel.h:134-142 | the four modes have distinct strings |
| `Kernel.ModeValueStr` | include/kernelpp/kernel.h:134-142 | on an underlying value, to_str answers "Unknown" exactly outside 1 to 4 |
| `Kernel.ParseMode` | include/kernelpp/kernel.h:134-142 | a mode string decodes only to the mode whose string it is |
| `Kernel.ModeOfValue` | include/kernelpp/kernel.h:27 | the values 1 to 4 name AUTO, CUDA, AVX, CPU |
| `Kernel.Available` | include/kernelpp/kernel.h:60-86 | available() is true only for an enabled mode |
| `Kernel.DefaultTraits` | include/kernelpp/kernel.h:60-64 | a mode with no specialisation (AUTO, or AVX/CUDA without its build flag) is neither enabled nor available |
| `Kernel.CpuAlwaysUsable` | include/kernelpp/kernel.h:66-70 | CPU is enabled and available in every build on every machine |
| `Kernel.FlaggedModesDeferToProbe` | include/kernelpp/kernel.h:72-86 | with its build flag, AVX or CUDA is enabled and available exactly when its probe says so |
| `Kernel.HasMode` | include/kernelpp/kernel.h:90-99 | has_mode<M, Modes...> is true iff M is one of the modes; false for the empty list |
| `Results.FromCode` | include/kernelpp/kernel_invoke.h:110 | a bare code returned as a kernel result has the shape's output type and get_errc gives the code back |
| `Results.GetErrcOfCodeShapes` | include/kernelpp/kernel_invoke.h:54-69 | get_errc is the identity for the void and error_code shapes |
| `Results.IsNotDefined` | include/kernelpp/kernel_invoke.h:145 | comparing a result with KERNEL_NOT_DEFINED agrees with its get_errc |
| `Results.Wrap` | include/kernelpp/kernel_invoke.h:180-204 | a void op yields a clear status; a plain value reaches the caller unchanged; a variant passes through as is; an error_code op's code is its get_errc |
| `Results.ConvertVariant` | include/kernelpp/kernel_invoke.h:213-220 | a held value is kept unchanged; a held code, NONE included, becomes a message that decodes to that code |
| `Results.ConvertCode` | include/kernelpp/kernel_invoke.h:222-224 | NONE gives the empty status; any other code a status whose message decodes to that code |
| `Results.Convert` | include/kernelpp/kernel_invoke.h:30-69 | the public type is status exactly for the error_code output types |
| `Results.PublicNamesEndCode` | include/kernelpp/kernel_invoke.h:112 | the code a caller reads off the public result is the one get_errc gave to the end hook |
| `Results.ConvertRoundTrip` | include/kernelpp/kernel_invoke.h:213-224 | a value is returned unchanged, the status is clear iff the code is NONE, and an error message decodes to its code |
| `Results.VariantNoneIsAnError` | include/kernelpp/kernel_invoke.h:216-217 | a variant holding NONE becomes the error "Success" |
| `Dispatch.DisabledMode` | include/kernelpp/kernel_invoke.h:119-128 | a mode not enabled gives COMPUTE_MODE_DISABLED with no begin, apply or end |
| `Dispatch.CancelSkipsOpAndEnd` | include/kernelpp/kernel_invoke.h:110 | when begin refuses, the result is CANCELLED, the op does not run and end is not called |
| `Dispatch.NormalRun` | include/kernelpp/kernel_invoke.h:110-114 | with begin agreeing on a supported mode, the op runs exactly once between begin and end, end receives get_errc of the result, and the result is apply's unchanged |
| `Dispatch.UnsupportedModeFiresHooks` | include/kernelpp/kernel_invoke.h:110-112 | an enabled unsupported mode still calls begin and end(KERNEL_NOT_DEFINED), with no op run |
| `Dispatch.ApplyPassesResult` | include/kernelpp/kernel_invoke.h:172-204 | a supported void op runs once and yields NONE; a non-void op's result passes through |
| `Dispatch.ConcreteEvents` | include/kernelpp/kernel_invoke.h:103-128 | a concrete call asks begin only about its own mode, only when enabled, never about AUTO, and runs the op only when enabled, agreed and supported |
| `Dispatch.ConcreteFits` | include/kernelpp/kernel_invoke.h:106-127 | every concrete call's result has the kernel's output type |
| `Dispatch.FirstUsable` | include/kernelpp/kernel_invoke.h:138-157 | the answer is Unknown exactly when no mode of the list is available and supported; otherwise it is such a mode and no mode before it in the list is |
| `Dispatch.FallbackSettled` | include/kernelpp/kernel_invoke.h:145-157 | once a result other than KERNEL_NOT_DEFINED is reached no later stage runs, so CANCELLED or KERNEL_FAILED is final |
| `Dispatch.FallbackRunsUntilDefined` | include/kernelpp/kernel_invoke.h:136-158 | for any kernel, AUTO (refusing nothing) runs exactly the ops of `RunsUntilDefined`, once each and in order: the usable modes up to and including the first whose op does not itself answer KERNEL_NOT_DEFINED; when none runs the result is KERNEL_NOT_DEFINED |
| `Dispatch.FallbackResultUntilDefined` | include/kernelpp/kernel_invoke.h:136-158 | for any kernel, AUTO (refusing nothing) returns the result of the last op of `RunsUntilDefined` when that result is not KERNEL_NOT_DEFINED, and KERNEL_NOT_DEFINED otherwise (also when no op runs) |
| `Dispatch.RunsUntilDefinedWhenOpsDefined` | include/kernelpp/kernel_invoke.h:136-158 | for a kernel none of whose ops answers KERNEL_NOT_DEFINED itself (`OpsDefined`), the modes run are just the first usable one, or none |
| `Dispatch.FallbackRunsFirstUsable` | include/kernelpp/kernel_invoke.h:136-158 | for a kernel none of whose ops answers KERNEL_NOT_DEFINED itself (`OpsDefined`), AUTO runs exactly the first available supported mode's op, once, and returns its result; with none, nothing runs and KERNEL_NOT_DEFINED is returned |
| `Dispatch.AutoInStages` | include/kernelpp/kernel_invoke.h:136-158 | AUTO with the corrected guards is the CUDA, AVX and CPU stages in that order, each starting from the result before it, with their events concatenated |
| `Dispatch.AutoRunsPreferredMode` | include/kernelpp/kernel_invoke.h:138-157 | for a kernel supporting CPU none of whose ops answers KERNEL_NOT_DEFINED itself (`OpsDefined`), AUTO runs exactly one op: CUDA's if usable, else AVX's if usable, else CPU's |
| `Dispatch.AutoWithOneAccelerator` | include/kernelpp/kernel_invoke.h:138-157 | a {CPU, X} kernel none of whose ops answers KERNEL_NOT_DEFINED itself (`OpsDefined`) runs X once if X is available and CPU once otherwise |
| `Dispatch.FallbackNeverBeginsAuto` | include/kernelpp/kernel_invoke.h:141-156 | under AUTO begin is only ever passed concrete modes |
| `Dispatch.AutoCancelIsFinal` | include/kernelpp/kernel_invoke.h:110-157 | begin refusing the first available mode ends AUTO with CANCELLED and no op run |
| `Dispatch.FallbackNeverUnavailable` | include/kernelpp/kernel_invoke.h:136-158 | no AUTO call produces COMPUTE_MODE_UNAVAILABLE unless an op returns it |
| `Dispatch.UnavailableModeStillRuns` | include/kernelpp/kernel_invoke.h:103-116 | an enabled but unavailable concrete mode still runs its op once |
| `Dispatch.AutoAsWrittenWithoutCuda` | include/kernelpp/kernel_invoke.h:136-158 | as written, AUTO with CUDA unavailable returns KERNEL_NOT_DEFINED and produces no event |
| `Dispatch.AutoAsWrittenRunsPastCuda` | include/kernelpp/kernel_invoke.h:139-157 | as written, with CUDA available and AVX not, a {CPU, CUDA} kernel none of whose ops answers KERNEL_NOT_DEFINED itself (`OpsDefined`) runs both CUDA and CPU and returns CPU's result |
| `Runners.Runner.constructor` | include/kernelpp/kernel_invoke.h:163-169 | a new runner has the kernel, the begin answers and an empty trace |
| `Runners.Runner.Begin` | include/kernelpp/kernel_invoke.h:168 | begin records the mode and agrees unless the mode is refused |
| `Runners.Runner.End` | include/kernelpp/kernel_invoke.h:169 | end records the code and changes nothing else |
| `Runners.Runner.Apply` | include/kernelpp/kernel_invoke.h:171-204 | apply returns and records exactly what `Dispatch.ApplySpec` gives |
| `Runners.CallConcrete` | include/kernelpp/kernel_invoke.h:103-128 | the step-by-step concrete call yields exactly the specified result and events |
| `Runners.CallAutoAsWritten` | include/kernelpp/kernel_invoke.h:131-159 | the step-by-step AUTO as written yields exactly the result and events of `Dispatch.AutoAsWrittenSpec` |
| `Runners.FallbackStage` | include/kernelpp/kernel_invoke.h:145-150 | one corrected AUTO stage calls its mode only while the result is KERNEL_NOT_DEFINED and the mode is available, and records exactly that stage's events |
| `Runners.CallAuto` | include/kernelpp/kernel_invoke.h:131-159 | the step-by-step AUTO with corrected guards yields exactly the fallback over CUDA, AVX, CPU |
| `Runners.Call` | include/kernelpp/kernel_invoke.h:99-159 | control<M>::call for any mode, AUTO with the corrected guards, yields the specified result and events |
| `Runners.CallAsWritten` | include/kernelpp/kernel_invoke.h:99-159 | control<M>::call for any mode, AUTO as written, yields the as-written result and events |
| `Runners.RunWith` | include/kernelpp/kernel_invoke.h:227-239 | run_with, AUTO with the corrected guards, returns the converted result of the call and leaves its events in the caller's runner |
| `Runners.Run` | include/kernelpp/kernel_invoke.h:241-254 | run, AUTO with the corrected guards, returns the converted result of the call with a runner that refuses nothing, and the ops it ran |
| `Runners.RunAsWritten` | include/kernelpp/kernel_invoke.h:241-254 | run with AUTO as written returns the converted as-written result with a runner that refuses nothing, and the ops it ran |
| `Scenarios.CallVoid` | test/lib_test.cpp:63-75 | run<foo>() and run<foo, CPU>() succeed with one CPU execution each, on every build |
| `Scenarios.CallUndefined` | test/lib_test.cpp:77-84 | run<foo, CUDA>() reports an error (KERNEL_NOT_DEFINED or COMPUTE_MODE_DISABLED) and runs nothing |
| `Scenarios.IntOfSize` | test/lib_test.cpp:58-60 | the op's `(int)v.size()`: a 32-bit signed value, congruent to the size modulo 2^32 and equal to it below 2^31 |
| `Scenarios.CallVectorAny` | test/lib_test.cpp:86-95 | run<foo>(v) yields `(int)v.size()` (the size of v whenever it is below 2^31) with one CPU execution, for every vector v |
| `Scenarios.CallVector` | test/lib_test.cpp:86-95 | run<foo>(five floats) yields the value 5 |
| `Scenarios.DeclinesRunsUntilDefined` | include/kernelpp/kernel.h:42-44 | for a {CPU, CUDA} kernel whose CUDA op answers KERNEL_NOT_DEFINED itself, with CUDA available, the fallback's run list is CUDA then CPU |
| `Scenarios.DeclinedOpFallsBack` | include/kernelpp/kernel_invoke.h:136-158 | that kernel under AUTO executes CUDA's op and then CPU's |
| `Scenarios.DeclinedOpResult` | include/kernelpp/kernel_invoke.h:136-158 | that kernel under AUTO returns the CPU op's ERROR_NONE |
| `Scenarios.DeclinedOpReportsCpu` | include/kernelpp/kernel_invoke.h:136-158 | that kernel under AUTO reports CPU's success, while run<K, CUDA> reports "Kernel Not Defined" |
| `Scenarios.CallLogRunner` | test/lib_test.cpp:163-167 | run_with<foo>(log_runner) reports no error and runs the CPU op once |
| `Scenarios.CallCuda` | test/lib_test.cpp:111-128 | run<foo_2>() succeeds, running CUDA once if enabled and available, else CPU once |
| `Scenarios.CallAvx` | test/lib_test.cpp:143-160 | run<foo_3>() succeeds, running AVX once if enabled and available, else CPU once |
| `Scenarios.CallVoidAsWritten` | include/kernelpp/kernel_invoke.h:136-158 | as written, run<foo>() without CUDA fails with "Kernel Not Defined" and runs nothing |
| `Scenarios.CallVoidAsWrittenWithCuda` | include/kernelpp/kernel_invoke.h:136-158 | as written, run<foo>() with CUDA available fires begin(CUDA) and end(KERNEL_NOT_DEFINED) and fails with "Kernel Not Defined" |
| `Scenarios.CallVoidAsWrittenNeverSucceeds` | include/kernelpp/kernel_invoke.h:136-158 | as written, run<foo>() fails with "Kernel Not Defined" and runs nothing on every build and machine |
| `Scenarios.CallCudaAsWrittenMaskedByAvx` | include/kernelpp/kernel_invoke.h:139-150 | as written, run<foo_2>() with CUDA and AVX available runs CUDA's op and then reports "Kernel Not Defined" from the AVX stage |
| `Scenarios.DeclinesAsWrittenStopsAtCuda` | include/kernelpp/kernel_invoke.h:139-157 | as written, with CUDA available, the kernel whose CUDA op answers KERNEL_NOT_DEFINED runs only CUDA's op and reports "Kernel Not Defined": the AVX and CPU stages never run |
| `Scenarios.CallCudaAsWritten` | include/kernelpp/kernel_invoke.h:139-157 | as written, run<foo_2>() with CUDA but no AVX runs both CUDA and CPU |
| `Scenarios.AsWrittenAndCorrectedDisagree` | include/kernelpp/kernel_invoke.h:145-157 | on a CPU-only build the two readings of AUTO give different public results |
| `AvxProbe.NeedsAvxBit` | src/lib.cpp:55-64 | the answer is true only if CPUID.1:ECX bit 28 is set |
| `AvxProbe.XcrDecidesWithOsxsave` | src/lib.cpp:58-62 | with ECX bits 27 and 28 set the answer is (XCR0 & 0x6) == 0x6 |
| `AvxProbe.TrueWithoutOsxsave` | src/lib.cpp:55-64 | with bit 28 set and bit 27 clear the answer is true whatever XCR0 holds |
| `AvxProbe.OnlyFeatureBitsMatter` | src/lib.cpp:55-61 | the answer depends only on ECX bits 27-28 and XCR0 bits 1-2 |
| `AvxProbe.AvxCache.constructor` | src/lib.cpp:48-49 | before the first call nothing is computed and the cached result is false |
| `AvxProbe.AvxCache.InitAvx` | src/lib.cpp:46-67 | the first call computes and caches the decision; later calls return the cached value; the body runs once |
| `AvxProbe.MachineProbes` | include/kernelpp/kernel.h:72-86 | the probe answers dispatch uses take AVX's from init_avx's cache: on the first call the AvxUsable decision, later the cached one |
| `AvxProbe.CallTwice` | src/lib.cpp:46-67 | two calls return the first call's decision even if the words differ, with one probe run |

## Left out

- The inline-assembly `__cpuid` and `_xgetbv` (src/lib.cpp:22-42) are hardware instructions. The words they return are parameters of `InitAvx`.
- The thread safety of `std::call_once` is concurrency and is not modelled. Only the sequential at-most-once cache is.
- `init_cudart`, `cuda_util.h`, `avx_util.h` and `config.h` are not part of this model. The build flags and the cached probe answers are parameters (`BuildConfig`, `Probes`).
- `log_runner`'s stream output is I/O and is left out. A `log_runner` is a `Runner` that refuses nothing, and its trace holds the begin and end calls it would print.
- Template selection, SFINAE, `decltype` and the `KERNEL_DECL` macro are replaced. A `Shape` value stands for the op's return type and a `Decl` for the declared mode list. An op overloaded on argument types is one `KernelImpl` per overload.
- `include/kernelpp/types.h` holds only aliases of mapbox `variant` and `optional`. They appear as the datatypes `Outcome`, `Maybe` and `Status`.
- User kernel bodies are reduced to what op returns. Any other effect is seen only as a `Ran` event. `print_compute_info` is console output and is left out.
- Perfect forwarding and move semantics of arguments are not observable here and are left out.
- An empty mode list does not compile (`impl<Traits, >` is ill-formed); that compile error is not modelled, and a `Decl` may hold the empty list. A list containing `AUTO` does compile (kernel.h:104-117 has no check) and is modelled as it is: `Supports(d, Auto)` is then true, and AUTO's stages still only pass concrete modes to `apply`.
- Dispatch.FallbackRunsFirstUsable: stated for runners that refuse nothing (the default runner and `log_runner`) and for kernels none of whose ops answers KERNEL_NOT_DEFINED itself (`OpsDefined`); `AutoRunsPreferredMode` and `AutoWithOneAccelerator` share that condition. For any kernel, `FallbackRunsUntilDefined` gives the ops that run and `FallbackResultUntilDefined` the value returned. For a refusing runner under AUTO, only the case where the first available mode is refused is stated, by `AutoCancelIsFinal`.

## Findings

| source | as written | input that shows it | evidently intended | confidence | as-written member | corrected member |
|---|---|---|---|---|---|---|
| include/kernelpp/kernel_invoke.h:145-157 | The AVX and CPU stages of AUTO run only when the result so far is NOT `KERNEL_NOT_DEFINED`, and the result starts as `KERNEL_NOT_DEFINED` | `run<foo>()` gets "Kernel Not Defined" and no op runs on every machine: without CUDA no stage runs, and with CUDA the CUDA stage (foo has no CUDA op) leaves `KERNEL_NOT_DEFINED`, so AVX and CPU are skipped. test/lib_test.cpp:63-75 expects success and one CPU call. Also `run<foo_2>()` with CUDA and AVX available runs CUDA's op and then reports "Kernel Not Defined", because the AVX stage runs after CUDA's success. | Each later stage runs only while the result IS `KERNEL_NOT_DEFINED`. AUTO then stops at the first available backend whose result is anything else. | high; not executed | `Scenarios.CallVoidAsWrittenNeverSucceeds` | `Scenarios.CallVoid` |
