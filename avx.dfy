/** init_avx (src/lib.cpp): whether the processor and the operating system
    let AVX instructions run, decided once from CPUID leaf 1 and XCR0 and
    cached for the life of the process. The CPUID and XGETBV instructions
    are not modelled: the words they return are parameters. */
module AvxProbe {
  import opened Kernel

  /** CPUID.1:ECX bit 28: the processor implements AVX. */
  const AvxBit: bv32 := 0x1000_0000

  /** CPUID.1:ECX bit 27: the operating system has enabled XSAVE/XGETBV. */
  const OsxsaveBit: bv32 := 0x0800_0000

  /** XCR0 bits 1 and 2: the operating system saves XMM and YMM state. */
  const XmmYmmState: bv64 := 0x6

  /** The decision init_avx caches, stated as a condition on the words: the
      AVX bit is set, and when OSXSAVE is set XCR0 enables both XMM and YMM
      state. (With OSXSAVE clear, the source does not read XCR0 and
      reports AVX as usable.) */
  predicate AvxUsable(ecx: bv32, xcr0: bv64)
  {
    ecx & AvxBit != 0 && (ecx & OsxsaveBit == 0 || xcr0 & XmmYmmState == XmmYmmState)
  }

  /** Without CPUID's AVX bit the answer is false. */
  lemma NeedsAvxBit(ecx: bv32, xcr0: bv64)
    requires AvxUsable(ecx, xcr0)
    ensures ecx & AvxBit != 0
  {
  }

  /** With OSXSAVE and AVX both set, the answer is XCR0's verdict. */
  lemma XcrDecidesWithOsxsave(ecx: bv32, xcr0: bv64)
    requires ecx & AvxBit != 0 && ecx & OsxsaveBit != 0
    ensures AvxUsable(ecx, xcr0) <==> xcr0 & 0x6 == 0x6
  {
  }

  /** With AVX set and OSXSAVE clear the answer is true whatever XCR0 holds. */
  lemma TrueWithoutOsxsave(ecx: bv32, xcr0: bv64, xcr0': bv64)
    requires ecx & AvxBit != 0 && ecx & OsxsaveBit == 0
    ensures AvxUsable(ecx, xcr0) && AvxUsable(ecx, xcr0')
  {
  }

  /** Only ECX bits 27 and 28 and XCR0 bits 1 and 2 matter. */
  lemma OnlyFeatureBitsMatter(ecx: bv32, xcr0: bv64, ecx': bv32, xcr0': bv64)
    requires ecx & 0x1800_0000 == ecx' & 0x1800_0000
    requires xcr0 & 0x6 == xcr0' & 0x6
    ensures AvxUsable(ecx, xcr0) == AvxUsable(ecx', xcr0')
  {
    assert ecx & AvxBit == (ecx & 0x1800_0000) & AvxBit;
    assert ecx' & AvxBit == (ecx' & 0x1800_0000) & AvxBit;
    assert ecx & OsxsaveBit == (ecx & 0x1800_0000) & OsxsaveBit;
    assert ecx' & OsxsaveBit == (ecx' & 0x1800_0000) & OsxsaveBit;
  }

  /** The function-static state of init_avx: the once_flag, the cached
      result, and how often the probe body has run. */
  class AvxCache {
    var computed: bool
    var success: bool
    var probeRuns: nat

    ghost predicate Valid()
      reads this
    {
      probeRuns == (if computed then 1 else 0) && (!computed ==> !success)
    }

    /** Static initialisation: nothing computed, the result false. */
    constructor ()
      ensures Valid() && !computed && !success && probeRuns == 0
    {
      computed, success, probeRuns := false, false, 0;
    }

    /** init_avx(): on the first call the probe body reads the words and
      stores its decision; every call returns the stored result. ecx and
      xcr0 are what CPUID leaf 1 and XGETBV(0) would return if the body ran
      on this call. */
    method InitAvx(ecx: bv32, xcr0: bv64) returns (b: bool)
      requires Valid()
      modifies this
      ensures Valid() && computed && probeRuns == 1
      ensures old(computed) ==> success == old(success)
      ensures !old(computed) ==> success == AvxUsable(ecx, xcr0)
      ensures b == success
    {
      if !computed {
        var avxSupported := ecx & AvxBit != 0;
        var osxsaveSupported := ecx & OsxsaveBit != 0;
        if osxsaveSupported && avxSupported {
          avxSupported := xcr0 & XmmYmmState == XmmYmmState;
        }
        success := avxSupported;
        computed := true;
        probeRuns := probeRuns + 1;
      }
      b := success;
    }
  }

  /** The probe answers dispatch consults: compute_traits<AVX>::available()
      is init_avx(), read through the cache; the CUDA answer, from
      init_cudart(), is a parameter. */
  method MachineProbes(cache: AvxCache, ecx: bv32, xcr0: bv64, cuda: bool) returns (p: Probes)
    requires cache.Valid()
    modifies cache
    ensures cache.Valid() && cache.computed
    ensures p == Probes(cache.success, cuda)
    ensures old(cache.computed) ==> p.avx == old(cache.success)
    ensures !old(cache.computed) ==> p.avx == AvxUsable(ecx, xcr0)
  {
    var avx := cache.InitAvx(ecx, xcr0);
    p := Probes(avx, cuda);
  }

  /** Two calls on a fresh cache: both answer what the first call's words
      decide, whatever the second call's words are, and the body runs once. */
  method CallTwice(ecx1: bv32, xcr01: bv64, ecx2: bv32, xcr02: bv64) returns (b1: bool, b2: bool, runs: nat)
    ensures b1 == AvxUsable(ecx1, xcr01) && b2 == b1 && runs == 1
  {
    var cache := new AvxCache();
    b1 := cache.InitAvx(ecx1, xcr01);
    b2 := cache.InitAvx(ecx2, xcr02);
    runs := cache.probeRuns;
  }
}
