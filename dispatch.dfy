/** Runtime kernel selection (include/kernelpp/kernel_invoke.h, control<M>
    and runner<K>), stated as functions: what one call returns and the
    hook and kernel events it produces, in order. The imperative
    dispatcher in module Runners is proved to match these. */
module Dispatch {
  import opened Kernel
  import opened Results

  /** A declared kernel: its KERNEL_DECL name and modes, the return shape of
      its op, and what op<M> returns when it is executed for mode M. */
  datatype KernelImpl<R> = KernelImpl(decl: Decl, shape: Shape, op: Mode -> OpReturn<R>)

  /** Every specialisation of op has the one return type the shape names. */
  predicate WellTyped<R>(k: KernelImpl<R>)
  {
    forall m :: ShapeOf(k.op(m)) == k.shape
  }

  /** What can be observed of one dispatch: the begin hook asked about a
      mode, the kernel's op executed for a mode, the end hook told a code. */
  datatype Event = Began(mode: Mode) | Ran(mode: Mode) | Ended(code: ErrorCode)

  /** The result of a dispatch and the events it produced. */
  datatype Attempt<R> = Attempt(out: Output<R>, events: seq<Event>)

  /** The modes whose op executed, in order: the per-backend call counters
      of the tests are the number of occurrences of each mode here. */
  function Execs(events: seq<Event>): seq<Mode>
  {
    if events == [] then [] else ExecOf(events[0]) + Execs(events[1..])
  }

  function ExecOf(e: Event): seq<Mode>
  {
    if e.Ran? then [e.mode] else []
  }

  /** The modes the begin hook was asked about, in order. */
  function Begins(events: seq<Event>): seq<Mode>
  {
    if events == [] then [] else BeginOf(events[0]) + Begins(events[1..])
  }

  function BeginOf(e: Event): seq<Mode>
  {
    if e.Began? then [e.mode] else []
  }

  lemma {:induction false} ExecsAppend(a: seq<Event>, b: seq<Event>)
    ensures Execs(a + b) == Execs(a) + Execs(b)
  {
    if a == [] {
      assert a + b == b;
    } else {
      calc {
        Execs(a + b);
        == { assert (a + b)[0] == a[0] && (a + b)[1..] == a[1..] + b; }
        ExecOf(a[0]) + Execs(a[1..] + b);
        == { ExecsAppend(a[1..], b); }
        ExecOf(a[0]) + (Execs(a[1..]) + Execs(b));
      }
    }
  }

  lemma {:induction false} BeginsAppend(a: seq<Event>, b: seq<Event>)
    ensures Begins(a + b) == Begins(a) + Begins(b)
  {
    if a == [] {
      assert a + b == b;
    } else {
      calc {
        Begins(a + b);
        == { assert (a + b)[0] == a[0] && (a + b)[1..] == a[1..] + b; }
        BeginOf(a[0]) + Begins(a[1..] + b);
        == { BeginsAppend(a[1..], b); }
        BeginOf(a[0]) + (Begins(a[1..]) + Begins(b));
      }
    }
  }

  /** The hook events of an attempt that reached the kernel. */
  lemma HookEvents(m: Mode, c: ErrorCode)
    ensures Execs([Began(m), Ran(m), Ended(c)]) == [m]
    ensures Execs([Began(m), Ended(c)]) == []
    ensures Execs([Began(m)]) == []
    ensures Begins([Began(m), Ran(m), Ended(c)]) == [m]
    ensures Begins([Began(m), Ended(c)]) == [m]
    ensures Begins([Began(m)]) == [m]
  {
    assert [Ended(c)][1..] == [];
    assert Execs([Ended(c)]) == [] && Begins([Ended(c)]) == [];
    assert [Ran(m), Ended(c)][1..] == [Ended(c)];
    assert Execs([Ran(m), Ended(c)]) == [m] && Begins([Ran(m), Ended(c)]) == [];
    assert [Began(m), Ran(m), Ended(c)][1..] == [Ran(m), Ended(c)];
    assert [Began(m), Ended(c)][1..] == [Ended(c)];
    assert [Began(m)][1..] == [];
  }

  /* runner<K>::apply ------------------------------------------------------- */

  /** runner::apply<M>: KERNEL_NOT_DEFINED without executing anything when
      the kernel does not support M; otherwise op<M> executes once, and a
      void op yields NONE while a non-void op's result is passed through. */
  function ApplySpec<R>(k: KernelImpl<R>, m: Mode): Attempt<R>
  {
    if !Supports(k.decl, m) then Attempt(FromCode(k.shape, KernelNotDefined), [])
    else if IsVoid(k.shape) then Attempt(CodeOut(None), [Ran(m)])
    else Attempt(Wrap(k.op(m)), [Ran(m)])
  }

  /* control<M>::call for a concrete mode ------------------------------------ */

  /** control<M>::call. A mode not enabled at build time answers
      COMPUTE_MODE_DISABLED and touches nothing. An enabled one asks begin,
      which may cancel (end is then not called); otherwise apply runs and
      end is told get_errc of its result, which is returned unchanged.
      Availability is not consulted. The begin hook refuses the modes in
      vetoed. */
  function ConcreteSpec<R>(cfg: BuildConfig, k: KernelImpl<R>, vetoed: set<Mode>, m: Mode): Attempt<R>
  {
    if !Enabled(cfg, m) then Attempt(FromCode(k.shape, ComputeModeDisabled), [])
    else if m in vetoed then Attempt(FromCode(k.shape, Cancelled), [Began(m)])
    else
      var a := ApplySpec(k, m);
      Attempt(a.out, [Began(m)] + a.events + [Ended(GetErrc(a.out))])
  }

  lemma DisabledMode<R>(cfg: BuildConfig, k: KernelImpl<R>, vetoed: set<Mode>, m: Mode)
    requires !Enabled(cfg, m)
    ensures var a := ConcreteSpec(cfg, k, vetoed, m);
      GetErrc(a.out) == ComputeModeDisabled && Fits(k.shape, a.out) && a.events == []
  {
  }

  /** A cancelling begin hook: the result is CANCELLED, the op does not
      execute and the end hook is not called. */
  lemma CancelSkipsOpAndEnd<R>(cfg: BuildConfig, k: KernelImpl<R>, vetoed: set<Mode>, m: Mode)
    requires Enabled(cfg, m) && m in vetoed
    ensures var a := ConcreteSpec(cfg, k, vetoed, m);
      GetErrc(a.out) == Cancelled && Fits(k.shape, a.out) &&
      a.events == [Began(m)] && Execs(a.events) == []
  {
    HookEvents(m, Cancelled);
  }

  /** An enabled, supported, unvetoed mode: the op executes exactly once
      between begin and end, end is told the result's code, and the result
      is apply's, untouched by the hooks. */
  lemma NormalRun<R>(cfg: BuildConfig, k: KernelImpl<R>, vetoed: set<Mode>, m: Mode)
    requires Enabled(cfg, m) && m !in vetoed && Supports(k.decl, m)
    ensures var a := ConcreteSpec(cfg, k, vetoed, m);
      a.out == ApplySpec(k, m).out &&
      a.events == [Began(m), Ran(m), Ended(GetErrc(a.out))] &&
      Execs(a.events) == [m] && Begins(a.events) == [m]
  {
    HookEvents(m, GetErrc(ApplySpec(k, m).out));
  }

  /** An enabled mode the kernel does not support still fires both hooks
      around an apply that answers KERNEL_NOT_DEFINED. */
  lemma UnsupportedModeFiresHooks<R>(cfg: BuildConfig, k: KernelImpl<R>, vetoed: set<Mode>, m: Mode)
    requires Enabled(cfg, m) && m !in vetoed && !Supports(k.decl, m)
    ensures var a := ConcreteSpec(cfg, k, vetoed, m);
      a.out == FromCode(k.shape, KernelNotDefined) &&
      a.events == [Began(m), Ended(KernelNotDefined)] && Execs(a.events) == []
  {
    HookEvents(m, KernelNotDefined);
  }

  /** A void kernel's supported mode yields NONE; a value kernel's yields
      what op returned, converted to the output type. */
  lemma ApplyPassesResult<R>(k: KernelImpl<R>, m: Mode)
    requires Supports(k.decl, m)
    ensures IsVoid(k.shape) ==> ApplySpec(k, m).out == CodeOut(None)
    ensures !IsVoid(k.shape) ==> ApplySpec(k, m).out == Wrap(k.op(m))
    ensures Execs(ApplySpec(k, m).events) == [m]
  {
    assert [Ran(m)][1..] == [];
  }

  /** Which modes a concrete call executes and asks begin about; begin is
      never asked about Auto. */
  lemma ConcreteEvents<R>(cfg: BuildConfig, k: KernelImpl<R>, vetoed: set<Mode>, m: Mode)
    ensures var a := ConcreteSpec(cfg, k, vetoed, m);
      Execs(a.events) == (if Enabled(cfg, m) && m !in vetoed && Supports(k.decl, m) then [m] else []) &&
      Begins(a.events) == (if Enabled(cfg, m) then [m] else []) &&
      Auto !in Begins(a.events)
  {
    if Enabled(cfg, m) {
      if m in vetoed {
        HookEvents(m, Cancelled);
      } else {
        var a := ApplySpec(k, m);
        HookEvents(m, GetErrc(a.out));
        if Supports(k.decl, m) {
          assert a.events == [Ran(m)];
          assert [Began(m)] + a.events + [Ended(GetErrc(a.out))] == [Began(m), Ran(m), Ended(GetErrc(a.out))];
        } else {
          assert a.events == [];
          assert [Began(m)] + a.events + [Ended(GetErrc(a.out))] == [Began(m), Ended(GetErrc(a.out))];
        }
      }
    }
  }

  /** The output of every call has the kernel's output type. */
  lemma ConcreteFits<R>(cfg: BuildConfig, k: KernelImpl<R>, vetoed: set<Mode>, m: Mode)
    requires WellTyped(k)
    ensures Fits(k.shape, ConcreteSpec(cfg, k, vetoed, m).out)
  {
    if Enabled(cfg, m) && m !in vetoed && Supports(k.decl, m) && !IsVoid(k.shape) {
      assert ShapeOf(k.op(m)) == k.shape;
    }
  }

  /* control<AUTO>::call ---------------------------------------------------- */

  /** The order in which AUTO tries the concrete modes. */
  const Priority: seq<Mode> := [Cuda, Avx, Cpu]

  /** AUTO's stages over a list of modes, carrying the result so far in s:
      a stage runs its mode when s is still KERNEL_NOT_DEFINED and the mode
      is available, and its result replaces s. So the first result that is
      not KERNEL_NOT_DEFINED is final. */
  function FallbackFrom<R>(cfg: BuildConfig, probes: Probes, k: KernelImpl<R>, vetoed: set<Mode>,
                           s: Output<R>, modes: seq<Mode>): Attempt<R>
    decreases |modes|
  {
    if modes == [] then Attempt(s, [])
    else if IsNotDefined(s) && Available(cfg, probes, modes[0]) then
      var a := ConcreteSpec(cfg, k, vetoed, modes[0]);
      var rest := FallbackFrom(cfg, probes, k, vetoed, a.out, modes[1..]);
      Attempt(rest.out, a.events + rest.events)
    else FallbackFrom(cfg, probes, k, vetoed, s, modes[1..])
  }

  /** One stage of the fallback: the mode runs when the result so far is
      KERNEL_NOT_DEFINED and the mode is available, and is skipped
      otherwise. */
  function FallbackOne<R>(cfg: BuildConfig, probes: Probes, k: KernelImpl<R>, vetoed: set<Mode>,
                          s: Output<R>, m: Mode): Attempt<R>
  {
    if IsNotDefined(s) && Available(cfg, probes, m) then ConcreteSpec(cfg, k, vetoed, m) else Attempt(s, [])
  }

  /** The fallback over a list is its head's stage followed by the fallback
      over the rest from that stage's result. */
  lemma FallbackStep<R>(cfg: BuildConfig, probes: Probes, k: KernelImpl<R>, vetoed: set<Mode>,
                        s: Output<R>, modes: seq<Mode>)
    requires modes != []
    ensures var a := FallbackOne(cfg, probes, k, vetoed, s, modes[0]);
      var rest := FallbackFrom(cfg, probes, k, vetoed, a.out, modes[1..]);
      FallbackFrom(cfg, probes, k, vetoed, s, modes) == Attempt(rest.out, a.events + rest.events)
  {
  }

  /** AUTO as its tests expect it: start from KERNEL_NOT_DEFINED and try
      CUDA, then AVX, then CPU, stopping at the first result that is not
      KERNEL_NOT_DEFINED. */
  function AutoSpec<R>(cfg: BuildConfig, probes: Probes, k: KernelImpl<R>, vetoed: set<Mode>): Attempt<R>
  {
    FallbackFrom(cfg, probes, k, vetoed, FromCode(k.shape, KernelNotDefined), Priority)
  }

  /** AUTO is three stages in priority order: CUDA's from
      KERNEL_NOT_DEFINED, then AVX's and CPU's, each from the result before
      it; its events are theirs in that order. */
  lemma AutoInStages<R>(cfg: BuildConfig, probes: Probes, k: KernelImpl<R>, vetoed: set<Mode>)
    ensures var a1 := FallbackOne(cfg, probes, k, vetoed, FromCode(k.shape, KernelNotDefined), Cuda);
      var a2 := FallbackOne(cfg, probes, k, vetoed, a1.out, Avx);
      var a3 := FallbackOne(cfg, probes, k, vetoed, a2.out, Cpu);
      AutoSpec(cfg, probes, k, vetoed) == Attempt(a3.out, a1.events + a2.events + a3.events)
  {
    var s0 := FromCode(k.shape, KernelNotDefined);
    var a1 := FallbackOne(cfg, probes, k, vetoed, s0, Cuda);
    var a2 := FallbackOne(cfg, probes, k, vetoed, a1.out, Avx);
    var a3 := FallbackOne(cfg, probes, k, vetoed, a2.out, Cpu);
    assert Priority[1..] == [Avx, Cpu] && [Avx, Cpu][1..] == [Cpu] && [Cpu][1..] == [];
    FallbackStep(cfg, probes, k, vetoed, a2.out, [Cpu]);
    FallbackStep(cfg, probes, k, vetoed, a1.out, [Avx, Cpu]);
    FallbackStep(cfg, probes, k, vetoed, s0, Priority);
    assert a1.events + (a2.events + (a3.events + [])) == a1.events + a2.events + a3.events;
  }

  /** One stage of AUTO as written: when go holds, call the mode and let its
      result replace the one so far. */
  function Stage<R>(cfg: BuildConfig, k: KernelImpl<R>, vetoed: set<Mode>,
                    prev: Attempt<R>, go: bool, m: Mode): Attempt<R>
  {
    if go then
      var a := ConcreteSpec(cfg, k, vetoed, m);
      Attempt(a.out, prev.events + a.events)
    else prev
  }

  /** AUTO as written in the source: from KERNEL_NOT_DEFINED, CUDA runs when
      available, and AVX and then CPU run only when the result so far is NOT
      KERNEL_NOT_DEFINED and the mode is available. */
  function AutoAsWrittenSpec<R>(cfg: BuildConfig, probes: Probes, k: KernelImpl<R>, vetoed: set<Mode>): Attempt<R>
  {
    var s0 := Attempt(FromCode(k.shape, KernelNotDefined), []);
    var s1 := Stage(cfg, k, vetoed, s0, Available(cfg, probes, Cuda), Cuda);
    var s2 := Stage(cfg, k, vetoed, s1, !IsNotDefined(s1.out) && Available(cfg, probes, Avx), Avx);
    Stage(cfg, k, vetoed, s2, !IsNotDefined(s2.out) && Available(cfg, probes, Cpu), Cpu)
  }

  /** control<M>::call for any mode, with the corrected AUTO. */
  function CallSpec<R>(cfg: BuildConfig, probes: Probes, k: KernelImpl<R>, vetoed: set<Mode>, m: Mode): Attempt<R>
  {
    if m == Auto then AutoSpec(cfg, probes, k, vetoed) else ConcreteSpec(cfg, k, vetoed, m)
  }

  /** control<M>::call for any mode, with AUTO as written. */
  function CallAsWrittenSpec<R>(cfg: BuildConfig, probes: Probes, k: KernelImpl<R>, vetoed: set<Mode>, m: Mode): Attempt<R>
  {
    if m == Auto then AutoAsWrittenSpec(cfg, probes, k, vetoed) else ConcreteSpec(cfg, k, vetoed, m)
  }

  /** Whether a mode is available and the kernel supports it. */
  predicate Usable(cfg: BuildConfig, probes: Probes, d: Decl, m: Mode)
  {
    Available(cfg, probes, m) && Supports(d, m)
  }

  /** The first mode of the list that is available and that the kernel
      supports: Unknown exactly when no mode of the list is, and otherwise
      a usable mode with no usable mode before it. */
  function FirstUsable(cfg: BuildConfig, probes: Probes, d: Decl, modes: seq<Mode>): (r: Decoded<Mode>)
    ensures r.Unknown? <==> forall i :: 0 <= i < |modes| ==> !Usable(cfg, probes, d, modes[i])
    ensures r.Known? ==> exists i :: 0 <= i < |modes| && modes[i] == r.value && Usable(cfg, probes, d, modes[i]) &&
                                     forall j :: 0 <= j < i ==> !Usable(cfg, probes, d, modes[j])
    decreases |modes|
  {
    if modes == [] then Unknown
    else if Usable(cfg, probes, d, modes[0]) then Known(modes[0])
    else FirstUsable(cfg, probes, d, modes[1..])
  }

  /** No op of the kernel itself answers KERNEL_NOT_DEFINED. */
  predicate OpsDefined<R>(k: KernelImpl<R>)
  {
    forall m :: Supports(k.decl, m) ==> !IsNotDefined(ApplySpec(k, m).out)
  }

  /** Once a result other than KERNEL_NOT_DEFINED is reached, no later stage
      runs: a CANCELLED or KERNEL_FAILED is never masked. */
  lemma {:induction false} FallbackSettled<R>(cfg: BuildConfig, probes: Probes, k: KernelImpl<R>,
                                              vetoed: set<Mode>, s: Output<R>, modes: seq<Mode>)
    requires !IsNotDefined(s)
    ensures FallbackFrom(cfg, probes, k, vetoed, s, modes) == Attempt(s, [])
    decreases |modes|
  {
    if modes != [] {
      FallbackSettled(cfg, probes, k, vetoed, s, modes[1..]);
    }
  }

  /** With the default hooks, AUTO's fallback executes exactly the first
      usable mode's op, once, and returns its result; when no mode is
      usable nothing executes and the result is KERNEL_NOT_DEFINED. */
  lemma {:induction false} FallbackRunsFirstUsable<R>(cfg: BuildConfig, probes: Probes, k: KernelImpl<R>,
                                                      s: Output<R>, modes: seq<Mode>)
    requires OpsDefined(k) && IsNotDefined(s)
    ensures var a := FallbackFrom(cfg, probes, k, {}, s, modes);
      match FirstUsable(cfg, probes, k.decl, modes)
      case Known(m) => Execs(a.events) == [m] && a.out == ApplySpec(k, m).out
      case Unknown => Execs(a.events) == [] && IsNotDefined(a.out)
    decreases |modes|
  {
    if modes != [] {
      var m := modes[0];
      if Available(cfg, probes, m) {
        var a := ConcreteSpec(cfg, k, {}, m);
        var rest := FallbackFrom(cfg, probes, k, {}, a.out, modes[1..]);
        ExecsAppend(a.events, rest.events);
        if Supports(k.decl, m) {
          NormalRun(cfg, k, {}, m);
          FallbackSettled(cfg, probes, k, {}, a.out, modes[1..]);
        } else {
          UnsupportedModeFiresHooks(cfg, k, {}, m);
          FallbackRunsFirstUsable(cfg, probes, k, a.out, modes[1..]);
        }
      } else {
        FallbackRunsFirstUsable(cfg, probes, k, s, modes[1..]);
      }
    }
  }

  /** The modes whose op AUTO's fallback executes, for any kernel: the
      usable modes of the list in order, up to and including the first
      whose op's result is not KERNEL_NOT_DEFINED (an op may answer
      KERNEL_NOT_DEFINED itself, and then the fallback goes on). */
  function RunsUntilDefined<R>(cfg: BuildConfig, probes: Probes, k: KernelImpl<R>, modes: seq<Mode>): (r: seq<Mode>)
    ensures forall i :: 0 <= i < |r| ==> r[i] in modes && Usable(cfg, probes, k.decl, r[i])
    ensures forall i :: 0 <= i < |r| - 1 ==> IsNotDefined(ApplySpec(k, r[i]).out)
    decreases |modes|
  {
    if modes == [] then []
    else if Usable(cfg, probes, k.decl, modes[0]) then
      if IsNotDefined(ApplySpec(k, modes[0]).out)
      then [modes[0]] + RunsUntilDefined(cfg, probes, k, modes[1..])
      else [modes[0]]
    else RunsUntilDefined(cfg, probes, k, modes[1..])
  }

  /** With the default hooks, AUTO's fallback executes exactly the ops of
      RunsUntilDefined, once each and in order, for any kernel; when none
      runs, the result is KERNEL_NOT_DEFINED. */
  lemma {:induction false} FallbackRunsUntilDefined<R>(cfg: BuildConfig, probes: Probes, k: KernelImpl<R>,
                                                       s: Output<R>, modes: seq<Mode>)
    requires IsNotDefined(s)
    ensures var a := FallbackFrom(cfg, probes, k, {}, s, modes);
      Execs(a.events) == RunsUntilDefined(cfg, probes, k, modes) &&
      (RunsUntilDefined(cfg, probes, k, modes) == [] ==> IsNotDefined(a.out))
    decreases |modes|
  {
    if modes != [] {
      var m := modes[0];
      if Available(cfg, probes, m) {
        var a := ConcreteSpec(cfg, k, {}, m);
        var rest := FallbackFrom(cfg, probes, k, {}, a.out, modes[1..]);
        ExecsAppend(a.events, rest.events);
        if Supports(k.decl, m) {
          NormalRun(cfg, k, {}, m);
          if IsNotDefined(a.out) {
            FallbackRunsUntilDefined(cfg, probes, k, a.out, modes[1..]);
          } else {
            FallbackSettled(cfg, probes, k, {}, a.out, modes[1..]);
          }
        } else {
          UnsupportedModeFiresHooks(cfg, k, {}, m);
          FallbackRunsUntilDefined(cfg, probes, k, a.out, modes[1..]);
        }
      } else {
        FallbackRunsUntilDefined(cfg, probes, k, s, modes[1..]);
      }
    }
  }

  /** The result of the last op in a non-empty run list. */
  function LastOut<R>(k: KernelImpl<R>, runs: seq<Mode>): Output<R>
    requires runs != []
  {
    ApplySpec(k, runs[|runs| - 1]).out
  }

  /** A prefix does not change the last op's result. */
  lemma LastOutPrefixed<R>(k: KernelImpl<R>, m: Mode, runs: seq<Mode>)
    requires runs != []
    ensures LastOut(k, [m] + runs) == LastOut(k, runs)
  {
    assert ([m] + runs)[|[m] + runs| - 1] == runs[|runs| - 1];
  }

  /** The fallback's result, for any kernel with the default hooks: the
      last executed op's result when that is not KERNEL_NOT_DEFINED, and
      otherwise (no op ran, or the last one answered KERNEL_NOT_DEFINED)
      a KERNEL_NOT_DEFINED result. */
  lemma {:induction false} FallbackResultUntilDefined<R>(cfg: BuildConfig, probes: Probes, k: KernelImpl<R>,
                                                         s: Output<R>, modes: seq<Mode>)
    requires IsNotDefined(s)
    ensures var out := FallbackFrom(cfg, probes, k, {}, s, modes).out;
      var runs := RunsUntilDefined(cfg, probes, k, modes);
      if runs != [] && !IsNotDefined(LastOut(k, runs)) then out == LastOut(k, runs) else IsNotDefined(out)
    decreases |modes|
  {
    if modes != [] {
      var m := modes[0];
      var runs' := RunsUntilDefined(cfg, probes, k, modes[1..]);
      if Available(cfg, probes, m) {
        var a := ConcreteSpec(cfg, k, {}, m);
        if Supports(k.decl, m) {
          NormalRun(cfg, k, {}, m);
          if IsNotDefined(a.out) {
            FallbackResultUntilDefined(cfg, probes, k, a.out, modes[1..]);
            assert RunsUntilDefined(cfg, probes, k, modes) == [m] + runs';
            if runs' != [] {
              LastOutPrefixed(k, m, runs');
            } else {
              assert LastOut(k, [m]) == a.out;
            }
          } else {
            FallbackSettled(cfg, probes, k, {}, a.out, modes[1..]);
            assert RunsUntilDefined(cfg, probes, k, modes) == [m];
            assert LastOut(k, [m]) == a.out;
          }
        } else {
          UnsupportedModeFiresHooks(cfg, k, {}, m);
          FallbackResultUntilDefined(cfg, probes, k, a.out, modes[1..]);
        }
      } else {
        FallbackResultUntilDefined(cfg, probes, k, s, modes[1..]);
      }
    }
  }

  /** When no op answers KERNEL_NOT_DEFINED itself, the fallback executes
      only the first usable mode: RunsUntilDefined is FirstUsable. */
  lemma {:induction false} RunsUntilDefinedWhenOpsDefined<R>(cfg: BuildConfig, probes: Probes, k: KernelImpl<R>,
                                                             modes: seq<Mode>)
    requires OpsDefined(k)
    ensures RunsUntilDefined(cfg, probes, k, modes) ==
      match FirstUsable(cfg, probes, k.decl, modes)
      case Known(m) => [m]
      case Unknown => []
    decreases |modes|
  {
    if modes != [] && !Usable(cfg, probes, k.decl, modes[0]) {
      RunsUntilDefinedWhenOpsDefined(cfg, probes, k, modes[1..]);
    }
  }

  /** AUTO on a kernel supporting CPU always executes exactly one op: that
      of the first of CUDA, AVX, CPU that is available and supported. */
  lemma AutoRunsPreferredMode<R>(cfg: BuildConfig, probes: Probes, k: KernelImpl<R>)
    requires OpsDefined(k) && Supports(k.decl, Cpu)
    ensures var m := if Available(cfg, probes, Cuda) && Supports(k.decl, Cuda) then Cuda
                     else if Available(cfg, probes, Avx) && Supports(k.decl, Avx) then Avx
                     else Cpu;
      var a := AutoSpec(cfg, probes, k, {});
      Execs(a.events) == [m] && a.out == ApplySpec(k, m).out && !IsNotDefined(a.out)
  {
    FallbackRunsFirstUsable(cfg, probes, k, FromCode(k.shape, KernelNotDefined), Priority);
    assert Priority[1..] == [Avx, Cpu];
    assert Priority[1..][1..] == [Cpu];
    assert Priority[1..][1..][1..] == [];
  }

  /** A kernel implementing CPU and one accelerator X under AUTO executes X
      exactly once when X is available and CPU exactly once otherwise. */
  lemma AutoWithOneAccelerator<R>(cfg: BuildConfig, probes: Probes, k: KernelImpl<R>, x: Mode)
    requires x == Cuda || x == Avx
    requires OpsDefined(k)
    requires forall m :: Supports(k.decl, m) <==> m == Cpu || m == x
    ensures var a := AutoSpec(cfg, probes, k, {});
      Execs(a.events) == (if Available(cfg, probes, x) then [x] else [Cpu]) && !IsNotDefined(a.out)
  {
    AutoRunsPreferredMode(cfg, probes, k);
  }

  /** Under AUTO the begin hook is only ever asked about concrete modes,
      whatever the hooks answer. */
  lemma {:induction false} FallbackNeverBeginsAuto<R>(cfg: BuildConfig, probes: Probes, k: KernelImpl<R>,
                                                      vetoed: set<Mode>, s: Output<R>, modes: seq<Mode>)
    ensures Auto !in Begins(FallbackFrom(cfg, probes, k, vetoed, s, modes).events)
    decreases |modes|
  {
    if modes != [] {
      var m := modes[0];
      if IsNotDefined(s) && Available(cfg, probes, m) {
        var a := ConcreteSpec(cfg, k, vetoed, m);
        var rest := FallbackFrom(cfg, probes, k, vetoed, a.out, modes[1..]);
        ConcreteEvents(cfg, k, vetoed, m);
        FallbackNeverBeginsAuto(cfg, probes, k, vetoed, a.out, modes[1..]);
        BeginsAppend(a.events, rest.events);
      } else {
        FallbackNeverBeginsAuto(cfg, probes, k, vetoed, s, modes[1..]);
      }
    }
  }

  /** Under AUTO, a begin hook refusing the first available mode ends the
      call with CANCELLED: nothing executes and no later mode is tried. */
  lemma AutoCancelIsFinal<R>(cfg: BuildConfig, probes: Probes, k: KernelImpl<R>, vetoed: set<Mode>, m: Mode)
    requires m in Priority && Available(cfg, probes, m) && m in vetoed
    requires forall p :: p in Priority[..IndexOf(Priority, m)] ==> !Available(cfg, probes, p)
    ensures AutoSpec(cfg, probes, k, vetoed) == Attempt(FromCode(k.shape, Cancelled), [Began(m)])
  {
    var c: Output<R> := FromCode(k.shape, Cancelled);
    assert Priority[1..] == [Avx, Cpu];
    assert Priority[2..] == [Cpu];
    FallbackSettled(cfg, probes, k, vetoed, c, []);
    FallbackSettled(cfg, probes, k, vetoed, c, [Cpu]);
    FallbackSettled(cfg, probes, k, vetoed, c, [Avx, Cpu]);
    if m == Cuda {
      assert Priority[..IndexOf(Priority, m)] == [];
    } else if m == Avx {
      assert Priority[..IndexOf(Priority, m)] == [Cuda];
      assert !Available(cfg, probes, Cuda);
    } else {
      assert Priority[..IndexOf(Priority, m)] == [Cuda, Avx];
      assert !Available(cfg, probes, Cuda) && !Available(cfg, probes, Avx);
    }
  }

  /** The position of the first occurrence of x in s. */
  function IndexOf(s: seq<Mode>, x: Mode): (i: nat)
    requires x in s
    ensures i < |s| && s[i] == x && x !in s[..i]
  {
    if s[0] == x then 0 else 1 + IndexOf(s[1..], x)
  }

  /** No call produces COMPUTE_MODE_UNAVAILABLE unless an op returns it
      itself: an unavailable but enabled mode is simply executed. */
  lemma {:induction false} FallbackNeverUnavailable<R>(cfg: BuildConfig, probes: Probes, k: KernelImpl<R>,
                                                       vetoed: set<Mode>, s: Output<R>, modes: seq<Mode>)
    requires forall m :: GetErrc(ApplySpec(k, m).out) != ComputeModeUnavailable
    requires GetErrc(s) != ComputeModeUnavailable
    ensures GetErrc(FallbackFrom(cfg, probes, k, vetoed, s, modes).out) != ComputeModeUnavailable
    decreases |modes|
  {
    if modes != [] {
      var m := modes[0];
      if IsNotDefined(s) && Available(cfg, probes, m) {
        var a := ConcreteSpec(cfg, k, vetoed, m);
        FallbackNeverUnavailable(cfg, probes, k, vetoed, a.out, modes[1..]);
      } else {
        FallbackNeverUnavailable(cfg, probes, k, vetoed, s, modes[1..]);
      }
    }
  }

  /** An explicitly requested mode that is enabled but not available still
      executes its op: availability is never reported. */
  lemma UnavailableModeStillRuns<R>(cfg: BuildConfig, probes: Probes, k: KernelImpl<R>, m: Mode)
    requires Enabled(cfg, m) && !Available(cfg, probes, m) && Supports(k.decl, m)
    requires GetErrc(ApplySpec(k, m).out) != ComputeModeUnavailable
    ensures var a := CallSpec(cfg, probes, k, {}, m);
      Execs(a.events) == [m] && GetErrc(a.out) != ComputeModeUnavailable
  {
    NormalRun(cfg, k, {}, m);
  }

  /* AUTO as written --------------------------------------------------------- */

  /** As written, AUTO with CUDA unavailable returns KERNEL_NOT_DEFINED and
      runs nothing, whatever the kernel supports. */
  lemma AutoAsWrittenWithoutCuda<R>(cfg: BuildConfig, probes: Probes, k: KernelImpl<R>, vetoed: set<Mode>)
    requires !Available(cfg, probes, Cuda)
    ensures AutoAsWrittenSpec(cfg, probes, k, vetoed) == Attempt(FromCode(k.shape, KernelNotDefined), [])
  {
  }

  /** As written, a CUDA run that succeeds is followed by the AVX stage and,
      unless AVX answers KERNEL_NOT_DEFINED, the CPU stage: with AVX not
      available a {CPU, CUDA} kernel executes both CUDA and CPU, and the
      result is CPU's. */
  lemma AutoAsWrittenRunsPastCuda<R>(cfg: BuildConfig, probes: Probes, k: KernelImpl<R>)
    requires Available(cfg, probes, Cuda) && !Available(cfg, probes, Avx)
    requires Supports(k.decl, Cuda) && Supports(k.decl, Cpu) && OpsDefined(k)
    ensures var a := AutoAsWrittenSpec(cfg, probes, k, {});
      Execs(a.events) == [Cuda, Cpu] && a.out == ApplySpec(k, Cpu).out
  {
    var c1 := ConcreteSpec(cfg, k, {}, Cuda);
    var c3 := ConcreteSpec(cfg, k, {}, Cpu);
    NormalRun(cfg, k, {}, Cuda);
    NormalRun(cfg, k, {}, Cpu);
    var s0 := Attempt(FromCode(k.shape, KernelNotDefined), []);
    var s1 := Stage(cfg, k, {}, s0, true, Cuda);
    assert s1 == Attempt(c1.out, [] + c1.events);
    assert !IsNotDefined(s1.out);
    var s2 := Stage(cfg, k, {}, s1, false, Avx);
    assert s2 == s1;
    var s3 := Stage(cfg, k, {}, s2, true, Cpu);
    assert s3 == Attempt(c3.out, ([] + c1.events) + c3.events);
    assert AutoAsWrittenSpec(cfg, probes, k, {}) == s3;
    assert [] + c1.events == c1.events;
    ExecsAppend(c1.events, c3.events);
  }
}
