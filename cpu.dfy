/**
  CPU feature detection of `src/cpu.c`: three probes built from CPUID and XGETBV bit tests,
  and the three global flags that `fastfilters_cpu_init`, `fastfilters_cpu_enable` and
  `fastfilters_cpu_check` maintain. The instructions themselves are not executed: the machine's
  answers are an input. Bit numbers follow the CPUID and XGETBV instruction reference of the
  Intel 64 and IA-32 Architectures Software Developer's Manual.
*/
module Cpu {

  /** CPUID.01H:ECX.XSAVE, bit 26. */
  const XsaveBit: bv32 := 0x04000000
  /** CPUID.01H:ECX.OSXSAVE, bit 27. */
  const OsxsaveBit: bv32 := 0x08000000
  /** CPUID.01H:ECX.AVX, bit 28. */
  const AvxBit: bv32 := 0x10000000
  /** CPUID.01H:ECX.FMA, bit 12. */
  const FmaBit: bv32 := 0x00001000
  /** CPUID.(EAX=07H, ECX=0H):EBX.AVX2, bit 5. */
  const Avx2Bit: bv32 := 0x00000020
  /** XCR0 bit 1: SSE state enabled by the operating system. */
  const XmmBit: bv64 := 0x00000002
  /** XCR0 bit 2: AVX state enabled by the operating system. */
  const YmmBit: bv64 := 0x00000004

  /** What the processor answers: the highest CPUID leaf, two registers and XCR0. */
  datatype Machine = Machine(maxLeaf: nat, leaf1Ecx: bv32, leaf7Ebx: bv32, xcr0: bv64)

  /**
    The two build configurations of each probe: the compiler's `__builtin_cpu_supports`
    answers, or the CPUID path; `asmXgetbv` selects the inline-assembly `xgetbv`, which checks
    CPUID first, over the intrinsic, which does not.
  */
  datatype Probe =
    | Builtin(avx: bool, fma: bool, avx2: bool)
    | Cpuid(machine: Machine, asmXgetbv: bool)

  /** Bit k of x is set. */
  predicate HasBit32(x: bv32, k: nat)
    requires k < 32
  {
    (x >> k) & 1 == 1
  }

  predicate HasBit64(x: bv64, k: nat)
    requires k < 64
  {
    (x >> k) & 1 == 1
  }

  /** `get_cpuid`: whether the leaf exists. */
  predicate HasLeaf(m: Machine, level: nat)
  {
    level <= m.maxLeaf
  }

  /** `xgetbv`: with the assembly version, 0 unless leaf 1 reports XSAVE and OSXSAVE. */
  function Xgetbv(m: Machine, asmXgetbv: bool): bv64
  {
    if !asmXgetbv then m.xcr0
    else if !HasLeaf(m, 1) then 0
    else if m.leaf1Ecx & XsaveBit != XsaveBit then 0
    else if m.leaf1Ecx & OsxsaveBit != OsxsaveBit then 0
    else m.xcr0
  }

  /** `_supports_avx`. */
  predicate SupportsAvx(p: Probe)
  {
    match p {
      case Builtin(avx, _, _) => avx
      case Cpuid(m, asmXgetbv) =>
        HasLeaf(m, 1) && m.leaf1Ecx & AvxBit == AvxBit && Xgetbv(m, asmXgetbv) & 6 == 6
    }
  }

  /** `_supports_fma`. */
  predicate SupportsFma(p: Probe)
  {
    match p {
      case Builtin(avx, fma, _) => fma && avx
      case Cpuid(m, _) => SupportsAvx(p) && HasLeaf(m, 1) && m.leaf1Ecx & FmaBit == FmaBit
    }
  }

  /** `_supports_avx2`. */
  predicate SupportsAvx2(p: Probe)
  {
    match p {
      case Builtin(_, _, avx2) => avx2
      case Cpuid(m, asmXgetbv) =>
        && HasLeaf(m, 7) && m.leaf7Ebx & Avx2Bit == Avx2Bit
        && Xgetbv(m, asmXgetbv) & XmmBit == XmmBit && Xgetbv(m, asmXgetbv) & YmmBit == YmmBit
    }
  }

  /** The masks test single bits: AVX is ECX bit 28 with XCR0 bits 1 and 2. */
  lemma AvxBits(m: Machine, asmXgetbv: bool)
    ensures SupportsAvx(Cpuid(m, asmXgetbv)) <==>
              HasLeaf(m, 1) && HasBit32(m.leaf1Ecx, 28)
              && HasBit64(Xgetbv(m, asmXgetbv), 1) && HasBit64(Xgetbv(m, asmXgetbv), 2)
  {
    var x := m.leaf1Ecx;
    assert (x & AvxBit == AvxBit) == ((x >> 28) & 1 == 1);
    var y := Xgetbv(m, asmXgetbv);
    assert (y & 6 == 6) == ((y >> 1) & 1 == 1 && (y >> 2) & 1 == 1);
  }

  /** AVX2 is leaf 7 EBX bit 5 with XCR0 bits 1 and 2. */
  lemma Avx2Bits(m: Machine, asmXgetbv: bool)
    ensures SupportsAvx2(Cpuid(m, asmXgetbv)) <==>
              HasLeaf(m, 7) && HasBit32(m.leaf7Ebx, 5)
              && HasBit64(Xgetbv(m, asmXgetbv), 1) && HasBit64(Xgetbv(m, asmXgetbv), 2)
  {
    var x := m.leaf7Ebx;
    assert (x & Avx2Bit == Avx2Bit) == ((x >> 5) & 1 == 1);
    var y := Xgetbv(m, asmXgetbv);
    assert (y & XmmBit == XmmBit) == ((y >> 1) & 1 == 1);
    assert (y & YmmBit == YmmBit) == ((y >> 2) & 1 == 1);
  }

  /** FMA is ECX bit 12 on top of AVX. */
  lemma FmaBits(m: Machine, asmXgetbv: bool)
    ensures SupportsFma(Cpuid(m, asmXgetbv)) <==> SupportsAvx(Cpuid(m, asmXgetbv)) && HasBit32(m.leaf1Ecx, 12)
  {
    var x := m.leaf1Ecx;
    assert (x & FmaBit == FmaBit) == ((x >> 12) & 1 == 1);
  }

  /** Under either configuration the FMA probe fails whenever the AVX probe fails. */
  lemma FmaNeedsAvx(p: Probe)
    ensures SupportsFma(p) ==> SupportsAvx(p)
  {
  }

  /**
    The assembly `xgetbv` reports OS support only when leaf 1 has XSAVE (bit 26) and
    OSXSAVE (bit 27): without them neither AVX nor AVX2 is detected.
  */
  lemma AsmXgetbvNeedsOsxsave(m: Machine)
    requires !(HasLeaf(m, 1) && HasBit32(m.leaf1Ecx, 26) && HasBit32(m.leaf1Ecx, 27))
    ensures Xgetbv(m, true) == 0
    ensures !SupportsAvx(Cpuid(m, true)) && !SupportsAvx2(Cpuid(m, true))
  {
    var x := m.leaf1Ecx;
    assert (x & XsaveBit == XsaveBit) == ((x >> 26) & 1 == 1);
    assert (x & OsxsaveBit == OsxsaveBit) == ((x >> 27) & 1 == 1);
  }

  /** `fastfilters_cpu_feature_t`; enumerators other than the three are identified by a code. */
  datatype Feature = FeatureAvx | FeatureFma | FeatureAvx2 | OtherFeature(code: nat)

  /** The probe result for a known feature. */
  predicate Probed(p: Probe, f: Feature)
  {
    match f {
      case FeatureAvx => SupportsAvx(p)
      case FeatureFma => SupportsFma(p)
      case FeatureAvx2 => SupportsAvx2(p)
      case OtherFeature(_) => false
    }
  }

  /** The globals `g_supports_avx`, `g_supports_fma` and `g_supports_avx2`. */
  class Flags {
    var avx: bool
    var fma: bool
    var avx2: bool

    /** The statics' initial values: nothing is supported. */
    constructor ()
      ensures !avx && !fma && !avx2
    {
      avx, fma, avx2 := false, false, false;
    }

    /** `fastfilters_cpu_check`: the current flag, false for an unknown feature. */
    function Check(f: Feature): (r: bool)
      reads this
      ensures f.OtherFeature? ==> !r
    {
      match f {
        case FeatureAvx => avx
        case FeatureFma => fma
        case FeatureAvx2 => avx2
        case OtherFeature(_) => false
      }
    }

    /** `fastfilters_cpu_init`: each flag from its own probe. */
    method Init(p: Probe)
      modifies this
      ensures avx == SupportsAvx(p) && fma == SupportsFma(p) && avx2 == SupportsAvx2(p)
      ensures forall f: Feature :: Check(f) == Probed(p, f)
    {
      avx := SupportsAvx(p);
      fma := SupportsFma(p);
      avx2 := SupportsAvx2(p);
    }

    /**
      `fastfilters_cpu_enable`: for a known feature, disabling clears its flag and enabling
      re-probes it, and the result is the flag's new value; an unknown feature changes nothing
      and yields false. The other flags keep their values.
    */
    method Enable(f: Feature, enable: bool, p: Probe) returns (r: bool)
      modifies this
      ensures f.OtherFeature? ==> !r && avx == old(avx) && fma == old(fma) && avx2 == old(avx2)
      ensures !f.OtherFeature? ==> Check(f) == (enable && Probed(p, f)) && r == Check(f)
      ensures forall g: Feature :: g != f ==> Check(g) == old(Check(g))
    {
      match f {
        case FeatureAvx =>
          if enable { avx := SupportsAvx(p); } else { avx := false; }
        case FeatureFma =>
          if enable { fma := SupportsFma(p); } else { fma := false; }
        case FeatureAvx2 =>
          if enable { avx2 := SupportsAvx2(p); } else { avx2 := false; }
        case OtherFeature(_) =>
          return false;
      }
      r := Check(f);
    }
  }
}
