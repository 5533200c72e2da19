/** The kernels and expectations of test/lib_test.cpp, stated over the
    functions of module Dispatch for every build configuration and every probe
    answer, and the same kernels under AUTO as the source writes it. */
module Scenarios {
  import opened Kernel
  import opened Results
  import opened Dispatch
  import opened Runners

  /** KERNEL_DECL(foo, compute_mode::CPU) */
  const FooDecl: Decl := Decl("foo", [Cpu])

  /** foo's void op (it counts its calls). */
  const Foo: KernelImpl<int> := KernelImpl(FooDecl, VoidOp, (m: Mode) => Unit)

  /** The cast (int)v.size(): the size taken modulo 2^32 as a 32-bit
      two's-complement value, so sizes below 2^31 are kept. */
  function IntOfSize(n: nat): (r: int)
    ensures -0x8000_0000 <= r < 0x8000_0000
    ensures n < 0x8000_0000 ==> r == n
    ensures (r - n) % 0x1_0000_0000 == 0
  {
    var w := n % 0x1_0000_0000;
    if w < 0x8000_0000 then w else w - 0x1_0000_0000
  }

  /** foo's op taking a vector<float>, which returns (int)v.size(). */
  function FooOfVector(v: seq<real>): KernelImpl<int>
  {
    KernelImpl(FooDecl, ValueOp, (m: Mode) => Plain(IntOfSize(|v|)))
  }

  /** KERNEL_DECL(foo_2, compute_mode::CPU, compute_mode::CUDA), void op. */
  const Foo2: KernelImpl<int> := KernelImpl(Decl("foo_2", [Cpu, Cuda]), VoidOp, (m: Mode) => Unit)

  /** KERNEL_DECL(foo_3, compute_mode::CPU, compute_mode::AVX), void op. */
  const Foo3: KernelImpl<int> := KernelImpl(Decl("foo_3", [Cpu, Avx]), VoidOp, (m: Mode) => Unit)

  /** A void kernel's ops never answer KERNEL_NOT_DEFINED themselves. */
  lemma VoidOpsDefined(k: KernelImpl<int>)
    requires k.shape == VoidOp
    ensures OpsDefined(k)
  {
    forall m | Supports(k.decl, m)
      ensures !IsNotDefined(ApplySpec(k, m).out)
    {
    }
  }

  /** call_void: run<foo>() and run<foo, CPU>() both succeed, each executing
      the CPU op once. */
  lemma CallVoid(cfg: BuildConfig, probes: Probes)
    ensures var a := CallSpec(cfg, probes, Foo, {}, Auto);
      Convert(a.out) == AsStatus(Clear) && Execs(a.events) == [Cpu]
    ensures var a := CallSpec(cfg, probes, Foo, {}, Cpu);
      Convert(a.out) == AsStatus(Clear) && Execs(a.events) == [Cpu]
  {
    VoidOpsDefined(Foo);
    AutoRunsPreferredMode(cfg, probes, Foo);
    NormalRun(cfg, Foo, {}, Cpu);
  }

  /** call_undefined: run<foo, CUDA>() reports an error and executes
      nothing, whether CUDA is built in or not. */
  lemma CallUndefined(cfg: BuildConfig, probes: Probes)
    ensures var a := CallSpec(cfg, probes, Foo, {}, Cuda);
      Convert(a.out).AsStatus? && Convert(a.out).status.Raised? && Execs(a.events) == [] &&
      GetErrc(a.out) == (if cfg.withCuda then KernelNotDefined else ComputeModeDisabled)
  {
    ConcreteEvents(cfg, Foo, {}, Cuda);
  }

  /** call_vector: run<foo>(v) yields (int)v.size(), which is the size of v
      when it is below 2^31, executing the CPU op once, for every vector v. */
  lemma CallVectorAny(cfg: BuildConfig, probes: Probes, v: seq<real>)
    ensures var a := CallSpec(cfg, probes, FooOfVector(v), {}, Auto);
      Convert(a.out) == AsMaybe(Just(IntOfSize(|v|))) && Execs(a.events) == [Cpu]
  {
    var k := FooOfVector(v);
    assert OpsDefined(k) by {
      forall m | Supports(k.decl, m)
        ensures !IsNotDefined(ApplySpec(k, m).out)
      {
      }
    }
    AutoRunsPreferredMode(cfg, probes, k);
  }

  /** call_vector's own case: five floats yield the value 5. */
  lemma CallVector(cfg: BuildConfig, probes: Probes)
    ensures var a := CallSpec(cfg, probes, FooOfVector([0.0, 0.0, 0.0, 0.0, 0.0]), {}, Auto);
      Convert(a.out) == AsMaybe(Just(5)) && Execs(a.events) == [Cpu]
  {
    CallVectorAny(cfg, probes, [0.0, 0.0, 0.0, 0.0, 0.0]);
  }

  /** call_cuda: run<foo_2>() succeeds, executing CUDA once and CPU never
      when CUDA is enabled and available, and CPU once otherwise. */
  lemma CallCuda(cfg: BuildConfig, probes: Probes)
    ensures var a := CallSpec(cfg, probes, Foo2, {}, Auto);
      Convert(a.out) == AsStatus(Clear) &&
      Execs(a.events) == (if Enabled(cfg, Cuda) && Available(cfg, probes, Cuda) then [Cuda] else [Cpu])
  {
    VoidOpsDefined(Foo2);
    AutoWithOneAccelerator(cfg, probes, Foo2, Cuda);
    AutoRunsPreferredMode(cfg, probes, Foo2);
  }

  /** call_avx: the same for foo_3 and AVX. */
  lemma CallAvx(cfg: BuildConfig, probes: Probes)
    ensures var a := CallSpec(cfg, probes, Foo3, {}, Auto);
      Convert(a.out) == AsStatus(Clear) &&
      Execs(a.events) == (if Enabled(cfg, Avx) && Available(cfg, probes, Avx) then [Avx] else [Cpu])
  {
    VoidOpsDefined(Foo3);
    AutoWithOneAccelerator(cfg, probes, Foo3, Avx);
    AutoRunsPreferredMode(cfg, probes, Foo3);
  }

  /** A {CPU, CUDA} kernel returning error_code whose CUDA op answers
      KERNEL_NOT_DEFINED itself, as kernel.h allows for arguments a mode
      cannot handle, and whose CPU op succeeds. */
  const Declines: KernelImpl<int> :=
    KernelImpl(Decl("declines", [Cpu, Cuda]), ErrorCodeOp,
               (m: Mode) => if m == Cuda then Errc(KernelNotDefined) else Errc(None))

  /** The modes whose op the fallback executes for this kernel, with CUDA
      available: CUDA, whose op answers KERNEL_NOT_DEFINED, then CPU. */
  lemma DeclinesRunsUntilDefined(cfg: BuildConfig, probes: Probes)
    requires Available(cfg, probes, Cuda)
    ensures RunsUntilDefined(cfg, probes, Declines, Priority) == [Cuda, Cpu]
  {
    var k := Declines;
    assert Priority[1..] == [Avx, Cpu] && [Avx, Cpu][1..] == [Cpu] && [Cpu][1..] == [];
    assert ApplySpec(k, Cuda).out == CodeOut(KernelNotDefined);
    assert RunsUntilDefined(cfg, probes, k, [Cpu]) == [Cpu];
    assert RunsUntilDefined(cfg, probes, k, [Avx, Cpu]) == [Cpu];
  }

  /** With CUDA available, AUTO executes CUDA's op and then, since it
      answered KERNEL_NOT_DEFINED, CPU's. */
  lemma DeclinedOpFallsBack(cfg: BuildConfig, probes: Probes)
    requires Available(cfg, probes, Cuda)
    ensures Execs(CallSpec(cfg, probes, Declines, {}, Auto).events) == [Cuda, Cpu]
  {
    FallbackRunsUntilDefined(cfg, probes, Declines, FromCode(Declines.shape, KernelNotDefined), Priority);
    DeclinesRunsUntilDefined(cfg, probes);
  }

  /** ... and returns the CPU op's ERROR_NONE. */
  lemma DeclinedOpResult(cfg: BuildConfig, probes: Probes)
    requires Available(cfg, probes, Cuda)
    ensures CallSpec(cfg, probes, Declines, {}, Auto).out == CodeOut(None)
  {
    var k := Declines;
    FallbackResultUntilDefined(cfg, probes, k, FromCode(k.shape, KernelNotDefined), Priority);
    DeclinesRunsUntilDefined(cfg, probes);
    assert LastOut(k, [Cuda, Cpu]) == ApplySpec(k, Cpu).out;
  }

  /** ... which the caller sees as a clear status, where the same kernel
      without the fallback would have reported CUDA's KERNEL_NOT_DEFINED. */
  lemma DeclinedOpReportsCpu(cfg: BuildConfig, probes: Probes)
    requires Available(cfg, probes, Cuda)
    ensures Convert(CallSpec(cfg, probes, Declines, {}, Auto).out) == AsStatus(Clear)
    ensures Convert(CallSpec(cfg, probes, Declines, {}, Cuda).out) == AsStatus(Raised("Kernel Not Defined"))
  {
    DeclinedOpResult(cfg, probes);
    NormalRun(cfg, Declines, {}, Cuda);
  }

  /** As written, with CUDA available, the same kernel stops after CUDA:
      its op's KERNEL_NOT_DEFINED fails the guards of the AVX and CPU
      stages, so CPU never runs and "Kernel Not Defined" is reported. */
  lemma DeclinesAsWrittenStopsAtCuda(cfg: BuildConfig, probes: Probes)
    requires Available(cfg, probes, Cuda)
    ensures var a := AutoAsWrittenSpec(cfg, probes, Declines, {});
      Execs(a.events) == [Cuda] && Convert(a.out) == AsStatus(Raised("Kernel Not Defined"))
  {
    var k := Declines;
    var c1 := ConcreteSpec(cfg, k, {}, Cuda);
    NormalRun(cfg, k, {}, Cuda);
    assert c1.out == CodeOut(KernelNotDefined);
    var s1 := Stage(cfg, k, {}, Attempt(FromCode(k.shape, KernelNotDefined), []), true, Cuda);
    assert s1 == Attempt(c1.out, [] + c1.events);
    assert [] + c1.events == c1.events;
    assert AutoAsWrittenSpec(cfg, probes, k, {}) == s1;
  }

  /** runners.log_runner: run_with<foo>(log_runner) reports no error. A
      log_runner refuses nothing; the returned trace is what it would print,
      and the CPU op executes once. */
  method CallLogRunner(cfg: BuildConfig, probes: Probes) returns (p: Public<int>, trace: seq<Event>)
    ensures p == AsStatus(Clear) && Execs(trace) == [Cpu]
  {
    var r := new Runner(Foo, {});
    p := RunWith(cfg, probes, r, Auto);
    assert r.trace == CallSpec(cfg, probes, Foo, {}, Auto).events;
    trace := r.trace;
    CallVoid(cfg, probes);
  }

  /* The same tests against AUTO as written ---------------------------------- */

  /** As written, run<foo>() fails with "Kernel Not Defined" and executes
      nothing on every machine without CUDA, where call_void expects
      success and one CPU execution. */
  lemma CallVoidAsWritten(cfg: BuildConfig, probes: Probes)
    requires !Available(cfg, probes, Cuda)
    ensures var a := AutoAsWrittenSpec(cfg, probes, Foo, {});
      Convert(a.out) == AsStatus(Raised("Kernel Not Defined")) && Execs(a.events) == []
  {
    AutoAsWrittenWithoutCuda(cfg, probes, Foo, {});
  }

  /** As written, run<foo>() fails on machines with CUDA too: foo does not
      support CUDA, so the CUDA stage leaves KERNEL_NOT_DEFINED (after begin
      and end fire for CUDA) and the later stages are skipped. */
  lemma CallVoidAsWrittenWithCuda(cfg: BuildConfig, probes: Probes)
    requires Available(cfg, probes, Cuda)
    ensures var a := AutoAsWrittenSpec(cfg, probes, Foo, {});
      Convert(a.out) == AsStatus(Raised("Kernel Not Defined")) &&
      a.events == [Began(Cuda), Ended(KernelNotDefined)]
  {
    UnsupportedModeFiresHooks(cfg, Foo, {}, Cuda);
  }

  /** So, as written, run<foo>() never succeeds. */
  lemma CallVoidAsWrittenNeverSucceeds(cfg: BuildConfig, probes: Probes)
    ensures var a := AutoAsWrittenSpec(cfg, probes, Foo, {});
      Convert(a.out) == AsStatus(Raised("Kernel Not Defined")) && Execs(a.events) == []
  {
    if Available(cfg, probes, Cuda) {
      CallVoidAsWrittenWithCuda(cfg, probes);
      assert Execs([Began(Cuda), Ended(KernelNotDefined)]) == [];
    } else {
      CallVoidAsWritten(cfg, probes);
    }
  }

  /** As written, run<foo_2>() on a machine with CUDA but without AVX executes
      both the CUDA and the CPU op, where call_cuda expects CPU never to run. */
  lemma CallCudaAsWritten(cfg: BuildConfig, probes: Probes)
    requires Available(cfg, probes, Cuda) && !Available(cfg, probes, Avx)
    ensures var a := AutoAsWrittenSpec(cfg, probes, Foo2, {});
      Convert(a.out) == AsStatus(Clear) && Execs(a.events) == [Cuda, Cpu]
  {
    VoidOpsDefined(Foo2);
    AutoAsWrittenRunsPastCuda(cfg, probes, Foo2);
  }

  /** As written, run<foo_2>() on a machine with both CUDA and AVX reports
      "Kernel Not Defined" after the CUDA op succeeded: the AVX stage runs
      because CUDA's result is not KERNEL_NOT_DEFINED, and foo_2's missing
      AVX op replaces that success. */
  lemma CallCudaAsWrittenMaskedByAvx(cfg: BuildConfig, probes: Probes)
    requires Available(cfg, probes, Cuda) && Available(cfg, probes, Avx)
    ensures var a := AutoAsWrittenSpec(cfg, probes, Foo2, {});
      Convert(a.out) == AsStatus(Raised("Kernel Not Defined")) && Execs(a.events) == [Cuda]
  {
    var a1 := ConcreteSpec(cfg, Foo2, {}, Cuda);
    var a2 := ConcreteSpec(cfg, Foo2, {}, Avx);
    NormalRun(cfg, Foo2, {}, Cuda);
    UnsupportedModeFiresHooks(cfg, Foo2, {}, Avx);
    assert a1.out == CodeOut(None);
    var s1 := Stage(cfg, Foo2, {}, Attempt(FromCode(Foo2.shape, KernelNotDefined), []), true, Cuda);
    assert s1 == Attempt(a1.out, [] + a1.events);
    var s2 := Stage(cfg, Foo2, {}, s1, true, Avx);
    assert s2 == Attempt(a2.out, ([] + a1.events) + a2.events);
    assert IsNotDefined(s2.out);
    assert AutoAsWrittenSpec(cfg, probes, Foo2, {}) == s2;
    assert [] + a1.events == a1.events;
    ExecsAppend(a1.events, a2.events);
    assert Execs(a1.events) + Execs(a2.events) == [Cuda];
  }

  /** The two readings of AUTO disagree on the CPU-only build. */
  lemma AsWrittenAndCorrectedDisagree()
    ensures var cfg, probes := BuildConfig(false, false), Probes(false, false);
      Convert(AutoAsWrittenSpec(cfg, probes, Foo, {}).out) != Convert(AutoSpec(cfg, probes, Foo, {}).out)
  {
    var cfg, probes := BuildConfig(false, false), Probes(false, false);
    CallVoid(cfg, probes);
    CallVoidAsWritten(cfg, probes);
  }
}
