/** The dispatcher run step by step (include/kernelpp/kernel_invoke.h): a
    runner object whose hooks and kernel executions leave events in its
    trace, control<M>::call as methods that drive it, and the public entry
    points run and run_with. Call, RunWith and Run take AUTO with the
    corrected guards; CallAutoAsWritten, CallAsWritten and RunAsWritten
    take it as the source writes it. Each method is proved to produce
    exactly the result and events that module Dispatch specifies. */
module Runners {
  import opened Kernel
  import opened Results
  import opened Dispatch

  /** runner<K> (and any user runner passed to run_with): the begin hook
      refuses the modes in vetoed, the end hook observes, and apply
      executes the kernel's op. The default runner and log_runner refuse
      nothing. The trace records, in order, every begin and end call and
      every execution of an op. */
  class Runner<R> {
    const kernel: KernelImpl<R>
    const vetoed: set<Mode>
    var trace: seq<Event>

    constructor (kernel: KernelImpl<R>, vetoed: set<Mode>)
      ensures this.kernel == kernel && this.vetoed == vetoed && trace == []
    {
      this.kernel := kernel;
      this.vetoed := vetoed;
      trace := [];
    }

    /** runner::begin: true lets the attempt proceed. */
    method Begin(m: Mode) returns (proceed: bool)
      modifies this
      ensures proceed == (m !in vetoed)
      ensures trace == old(trace) + [Began(m)]
    {
      trace := trace + [Began(m)];
      proceed := m !in vetoed;
    }

    /** runner::end: observes the attempt's code and changes nothing else. */
    method End(c: ErrorCode)
      modifies this
      ensures trace == old(trace) + [Ended(c)]
    {
      trace := trace + [Ended(c)];
    }

    /** runner::apply<M>, its three overloads: an unsupported mode answers
      KERNEL_NOT_DEFINED; a void op executes and NONE is returned; a
      non-void op executes and its result is returned. */
    method Apply(m: Mode) returns (s: Output<R>)
      modifies this
      ensures s == ApplySpec(kernel, m).out
      ensures trace == old(trace) + ApplySpec(kernel, m).events
    {
      if !Supports(kernel.decl, m) {
        s := FromCode(kernel.shape, KernelNotDefined);
      } else if IsVoid(kernel.shape) {
        var _ := kernel.op(m);
        trace := trace + [Ran(m)];
        s := CodeOut(None);
      } else {
        var ret := kernel.op(m);
        trace := trace + [Ran(m)];
        s := Wrap(ret);
      }
    }
  }

  /** control<M>::call for a concrete mode: the disabled specialisation
      returns at once; the enabled one runs begin, apply and end. */
  method CallConcrete<R>(cfg: BuildConfig, r: Runner<R>, m: Mode) returns (s: Output<R>)
    modifies r
    ensures s == ConcreteSpec(cfg, r.kernel, r.vetoed, m).out
    ensures r.trace == old(r.trace) + ConcreteSpec(cfg, r.kernel, r.vetoed, m).events
  {
    if !Enabled(cfg, m) {
      return FromCode(r.kernel.shape, ComputeModeDisabled);
    }
    var proceed := r.Begin(m);
    if !proceed {
      return FromCode(r.kernel.shape, Cancelled);
    }
    s := r.Apply(m);
    r.End(GetErrc(s));
  }

  /** control<AUTO>::call exactly as written: the AVX and CPU stages are
      guarded by the result so far NOT being KERNEL_NOT_DEFINED. */
  method CallAutoAsWritten<R>(cfg: BuildConfig, probes: Probes, r: Runner<R>) returns (s: Output<R>)
    modifies r
    ensures s == AutoAsWrittenSpec(cfg, probes, r.kernel, r.vetoed).out
    ensures r.trace == old(r.trace) + AutoAsWrittenSpec(cfg, probes, r.kernel, r.vetoed).events
  {
    ghost var k, v, t0 := r.kernel, r.vetoed, r.trace;
    s := FromCode(r.kernel.shape, KernelNotDefined);
    ghost var a := Attempt(s, []);
    // a follows AutoAsWrittenSpec stage by stage.
    var go := Available(cfg, probes, Cuda);
    if go {
      s := CallConcrete(cfg, r, Cuda);
    }
    a := Stage(cfg, k, v, a, go, Cuda);
    assert s == a.out && r.trace == t0 + a.events;
    go := !IsNotDefined(s) && Available(cfg, probes, Avx);
    if go {
      s := CallConcrete(cfg, r, Avx);
    }
    a := Stage(cfg, k, v, a, go, Avx);
    assert s == a.out && r.trace == t0 + a.events;
    go := !IsNotDefined(s) && Available(cfg, probes, Cpu);
    if go {
      s := CallConcrete(cfg, r, Cpu);
    }
    a := Stage(cfg, k, v, a, go, Cpu);
    assert s == a.out && r.trace == t0 + a.events;
    assert a == AutoAsWrittenSpec(cfg, probes, k, v);
  }

  /** One stage of control<AUTO>::call with the corrected guard: call the
      mode when the result so far is KERNEL_NOT_DEFINED and the mode is
      available, and let its result replace the one so far. */
  method FallbackStage<R>(cfg: BuildConfig, probes: Probes, r: Runner<R>, s: Output<R>, m: Mode)
    returns (s': Output<R>, ghost events: seq<Event>)
    modifies r
    ensures Attempt(s', events) == FallbackOne(cfg, probes, r.kernel, r.vetoed, s, m)
    ensures r.trace == old(r.trace) + events
  {
    s', events := s, [];
    if IsNotDefined(s) && Available(cfg, probes, m) {
      s' := CallConcrete(cfg, r, m);
      events := ConcreteSpec(cfg, r.kernel, r.vetoed, m).events;
    }
  }

  /** control<AUTO>::call with the guards the tests require: a stage runs
      only while the result so far IS KERNEL_NOT_DEFINED. */
  method CallAuto<R>(cfg: BuildConfig, probes: Probes, r: Runner<R>) returns (s: Output<R>)
    modifies r
    ensures s == AutoSpec(cfg, probes, r.kernel, r.vetoed).out
    ensures r.trace == old(r.trace) + AutoSpec(cfg, probes, r.kernel, r.vetoed).events
  {
    ghost var t0 := r.trace;
    ghost var e1, e2, e3;
    var s0 := FromCode(r.kernel.shape, KernelNotDefined);
    var s1;
    s1, e1 := FallbackStage(cfg, probes, r, s0, Cuda);
    var s2;
    s2, e2 := FallbackStage(cfg, probes, r, s1, Avx);
    s, e3 := FallbackStage(cfg, probes, r, s2, Cpu);
    assert r.trace == t0 + (e1 + e2 + e3) by {
      assert (t0 + e1) + e2 == t0 + (e1 + e2);
      assert (t0 + (e1 + e2)) + e3 == t0 + (e1 + e2 + e3);
    }
    AutoInStages(cfg, probes, r.kernel, r.vetoed);
  }

  /** control<M>::call for any mode, AUTO taking the corrected fallback.
      Run and RunWith go through this one; CallAsWritten and RunAsWritten
      keep AUTO as the source writes it. */
  method Call<R>(cfg: BuildConfig, probes: Probes, r: Runner<R>, m: Mode) returns (s: Output<R>)
    modifies r
    ensures s == CallSpec(cfg, probes, r.kernel, r.vetoed, m).out
    ensures r.trace == old(r.trace) + CallSpec(cfg, probes, r.kernel, r.vetoed, m).events
  {
    if m == Auto {
      s := CallAuto(cfg, probes, r);
    } else {
      s := CallConcrete(cfg, r, m);
    }
  }

  /** run_with<K, M>: dispatch with a caller's runner, then convert. */
  method RunWith<R>(cfg: BuildConfig, probes: Probes, r: Runner<R>, m: Mode) returns (p: Public<R>)
    modifies r
    ensures p == Convert(CallSpec(cfg, probes, r.kernel, r.vetoed, m).out)
    ensures r.trace == old(r.trace) + CallSpec(cfg, probes, r.kernel, r.vetoed, m).events
  {
    var s := Call(cfg, probes, r, m);
    p := Convert(s);
  }

  /** control<M>::call for any mode, AUTO as written. */
  method CallAsWritten<R>(cfg: BuildConfig, probes: Probes, r: Runner<R>, m: Mode) returns (s: Output<R>)
    modifies r
    ensures s == CallAsWrittenSpec(cfg, probes, r.kernel, r.vetoed, m).out
    ensures r.trace == old(r.trace) + CallAsWrittenSpec(cfg, probes, r.kernel, r.vetoed, m).events
  {
    if m == Auto {
      s := CallAutoAsWritten(cfg, probes, r);
    } else {
      s := CallConcrete(cfg, r, m);
    }
  }

  /** run<K, M> with AUTO as written: dispatch with a default runner, then
      convert; also returns the modes whose op executed. */
  method RunAsWritten<R>(cfg: BuildConfig, probes: Probes, k: KernelImpl<R>, m: Mode) returns (p: Public<R>, ran: seq<Mode>)
    ensures p == Convert(CallAsWrittenSpec(cfg, probes, k, {}, m).out)
    ensures ran == Execs(CallAsWrittenSpec(cfg, probes, k, {}, m).events)
  {
    var r := new Runner(k, {});
    var s := CallAsWritten(cfg, probes, r, m);
    p := Convert(s);
    assert r.trace == CallAsWrittenSpec(cfg, probes, k, {}, m).events;
    ran := Execs(r.trace);
  }

  /** run<K, M>: dispatch with a default runner, then convert. Also returns
      the modes whose op executed, which the tests observe through their
      call counters. */
  method Run<R>(cfg: BuildConfig, probes: Probes, k: KernelImpl<R>, m: Mode) returns (p: Public<R>, ran: seq<Mode>)
    ensures p == Convert(CallSpec(cfg, probes, k, {}, m).out)
    ensures ran == Execs(CallSpec(cfg, probes, k, {}, m).events)
  {
    var r := new Runner(k, {});
    p := RunWith(cfg, probes, r, m);
    assert r.trace == CallSpec(cfg, probes, k, {}, m).events;
    ran := Execs(r.trace);
  }
}
